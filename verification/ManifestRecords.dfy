/** Which wire records describe an artifact, written out field by field, and that the reader accepts exactly
    those; and what the writer writes. */
module ManifestRecords {
  import opened Base
  import opened Manifest
  import opened SplitPlan
  import Decimal

  /** A digest is "sha256:" and 64 lower-case hexadecimal digits. */
  lemma DigestsAre(d: Digest)
    ensures IsSha256(d) <==>
            exists hex: string ::
              && d == "sha256:" + hex && |hex| == 64
              && forall i :: 0 <= i < 64 ==> hex[i] in "0123456789abcdef"
  {
    if IsSha256(d) {
      var hex := d[7..];
      assert d == d[..7] + hex;
      forall i | 0 <= i < 64 ensures hex[i] in "0123456789abcdef" {
        assert hex[i] == d[i + 7] && IsHex(d[i + 7]);
      }
    }
    if hex: string :| && d == "sha256:" + hex && |hex| == 64
                      && forall i :: 0 <= i < 64 ==> hex[i] in "0123456789abcdef" {
      assert d[..7] == "sha256:";
      forall i | 7 <= i < 71 ensures IsHex(d[i]) {
        assert d[i] == hex[i - 7];
      }
    }
  }

  /** The format contract in numbers: between one and 4096 parts, every part but the last of the part size, and the
      last of what is then left. */
  ghost predicate FitsFormat(utf8: string -> bool, a: Artifact) {
    var n := |a.parts|;
    var last := SizeOfPart(a.fileSize, a.partSize, n, n - 1);
    && (a.title != "" ==> utf8(a.title))
    && IsSha256(a.fileDigest)
    && 0 <= a.fileSize && 0 < a.partSize && 1 <= n <= 4096
    && (if a.fileSize == 0 then n == 1 else 0 < last <= a.partSize as int)
    && forall i :: 0 <= i < n ==> PartFits(a.parts[i], SizeOfPart(a.fileSize, a.partSize, n, i))
  }

  /** The size of part i of n. */
  ghost function SizeOfPart(fileSize: int64, partSize: int64, n: int, i: int): int {
    if i == n - 1 then fileSize as int - (n - 1) * partSize as int else partSize as int
  }

  ghost predicate PartFits(part: BlobPart, size: int) {
    IsSha256(part.digest) && part.size as int == size
  }

  lemma SizeOfPlan(plan: Plan, i: nat)
    requires plan.Valid() && i < plan.N()
    ensures plan.PartAt(i as int64).size as int == SizeOfPart(plan.fileSize, plan.partSize, plan.N(), i)
  {
    LoHi(plan, i);
  }

  lemma LastOfPlan(plan: Plan)
    requires plan.Valid()
    ensures
      if plan.fileSize == 0 then plan.N() == 1
      else 0 < SizeOfPart(plan.fileSize, plan.partSize, plan.N(), plan.N() - 1) <= plan.partSize as int
  {
    LoHi(plan, plan.N() - 1);
  }

  lemma PlanOfParts(fileSize: int64, partSize: int64, n: nat)
    requires 0 <= fileSize && 0 < partSize && 1 <= n <= 4096
    requires if fileSize == 0 then n == 1 else 0 < fileSize as int - (n - 1) * partSize as int <= partSize as int
    ensures New(fileSize, partSize) == Ok(Plan(fileSize, partSize, n as int64))
  {
    assert n * partSize as int == (n - 1) * partSize as int + partSize as int;
    PlanIsUnique(Plan(fileSize, partSize, n as int64));
  }

  lemma PartsFit(parts: seq<BlobPart>, plan: Plan)
    requires plan.Valid() && |parts| == plan.N()
    ensures
      (forall i :: 0 <= i < |parts| ==> IsSha256(parts[i].digest) && parts[i].size == plan.PartAt(i as int64).size) <==>
      (forall i :: 0 <= i < |parts| ==> PartFits(parts[i], SizeOfPart(plan.fileSize, plan.partSize, |parts|, i)))
  {
    forall i: nat | i < |parts|
      ensures IsSha256(parts[i].digest) && parts[i].size == plan.PartAt(i as int64).size <==>
              PartFits(parts[i], SizeOfPart(plan.fileSize, plan.partSize, |parts|, i))
    {
      SizeOfPlan(plan, i);
    }
  }

  /** Every artifact that passes the checks fits the format, and every one that fits passes. */
  lemma FormatIs(utf8: string -> bool, a: Artifact)
    ensures WellFormed(utf8, a) <==> FitsFormat(utf8, a)
  {
    if WellFormed(utf8, a) {
      LastOfPlan(New(a.fileSize, a.partSize).value);
      PartsFit(a.parts, New(a.fileSize, a.partSize).value);
    }
    if FitsFormat(utf8, a) {
      PlanOfParts(a.fileSize, a.partSize, |a.parts|);
      PartsFit(a.parts, New(a.fileSize, a.partSize).value);
    }
  }

  /** Media types are compared without case. */
  ghost predicate Types(text: string, mediaType: string) {
    Lower(text) == Lower(mediaType)
  }

  /** The record is a bigoci manifest; the embedded media type may be missing. */
  ghost predicate IsBigoci(w: WireManifest) {
    && (w.mediaType == "" || Types(w.mediaType, "application/vnd.oci.image.manifest.v1+json"))
    && Types(w.artifactType, "application/vnd.bigoci.file.v1")
  }

  /** The OCI empty descriptor, with its two bytes inlined or not. */
  ghost predicate IsEmptyConfig(config: WireConfig) {
    && Types(config.mediaType, "application/vnd.oci.empty.v1+json")
    && config.digest == "sha256:44136fa355b3678a1146ad16f7e8649e94fb4fc21fe77e8310c060f61caaff8a"
    && config.size == 2
    && config.data in {"", "{}"}
  }

  ghost predicate Annotates(w: WireManifest, key: string, text: string) {
    key in w.annotations && w.annotations[key] == text && text != ""
  }

  ghost predicate Counts(w: WireManifest, key: string, n: int64) {
    exists text :: Annotates(w, key, text) && Decimal.ParseInt(text) == Some(n)
  }

  /** This record describes this artifact. */
  ghost predicate Describes(utf8: string -> bool, w: WireManifest, a: Artifact) {
    && IsBigoci(w) && w.schemaVersion == 2 && IsEmptyConfig(w.config)
    && Annotates(w, "io.bigoci.file.digest", a.fileDigest)
    && Counts(w, "io.bigoci.file.size", a.fileSize)
    && Counts(w, "io.bigoci.part.size", a.partSize)
    && a.title == (if "org.opencontainers.image.title" in w.annotations then w.annotations["org.opencontainers.image.title"] else "")
    && |w.layers| == |a.parts|
    && (forall i :: 0 <= i < |w.layers| ==> LayerIs(w.layers[i], a.parts[i]))
    && WellFormed(utf8, a)
  }

  ghost predicate LayerIs(layer: WireLayer, part: BlobPart) {
    && Types(layer.mediaType, "application/vnd.bigoci.file.part.v1")
    && layer.digest == part.digest && layer.size == part.size
  }

  lemma CountIs(w: WireManifest, key: string, n: int64)
    ensures SizeAnnotation(w, key) == Ok(n) <==> Counts(w, key, n)
  {
    if SizeAnnotation(w, key) == Ok(n) {
      assert Annotates(w, key, Annotation(w, key));
    }
  }

  lemma AnnotationsAre(w: WireManifest, a: Artifact)
    requires a.parts == []
    ensures
      ReadAnnotations(w) == Ok(a) <==>
      && Annotates(w, "io.bigoci.file.digest", a.fileDigest)
      && Counts(w, "io.bigoci.file.size", a.fileSize)
      && Counts(w, "io.bigoci.part.size", a.partSize)
      && a.title == (if "org.opencontainers.image.title" in w.annotations then w.annotations["org.opencontainers.image.title"] else "")
  {
    CountIs(w, FILE_SIZE_KEY, a.fileSize);
    CountIs(w, PART_SIZE_KEY, a.partSize);
  }

  lemma LayersAre(layers: seq<WireLayer>, parts: seq<BlobPart>)
    ensures
      LayerParts(layers) == Ok(parts) <==>
      |layers| == |parts| && forall i :: 0 <= i < |layers| ==> LayerIs(layers[i], parts[i])
  {
    var k := FirstForeign(layers, 0);
    if k == |layers| && |layers| == |parts| && forall i :: 0 <= i < |layers| ==> LayerIs(layers[i], parts[i]) {
      assert PartsOf(layers) == parts;
    }
    if LayerParts(layers) == Ok(parts) {
      forall i | 0 <= i < |layers| ensures LayerIs(layers[i], parts[i]) {
        assert IsPartLayer(layers[i]);
      }
    }
  }

  /** A record is read as an artifact exactly when it describes it, and is refused as no bigoci artifact exactly
      when its types are others. */
  lemma ReadExactlyWhatDescribes(utf8: string -> bool, w: WireManifest, a: Artifact)
    ensures Decode(utf8, w) == Ok(a) <==> Describes(utf8, w, a)
    ensures Decode(utf8, w) == Err(NotBigociArtifact) <==> !IsBigoci(w)
  {
    AnnotationsAre(w, a.(parts := []));
    LayersAre(w.layers, a.parts);
    if Decode(utf8, w) == Ok(a) {
      DecodedFrom(utf8, w, a);
    }
    ValidateBlamesContent(utf8, w);
  }

  /** Why a record is refused, down to the layers: in this order, and for no other reason. */
  lemma WhyRefused(utf8: string -> bool, w: WireManifest)
    ensures Decode(utf8, w) == Err(WrongSchemaVersion) <==> IsBigoci(w) && w.schemaVersion != 2
    ensures Decode(utf8, w) == Err(ConfigMismatch) <==> IsBigoci(w) && w.schemaVersion == 2 && !IsEmptyConfig(w.config)
    ensures
      IsBigoci(w) && w.schemaVersion == 2 && IsEmptyConfig(w.config) ==>
        match Decode(utf8, w)
        case Err(MissingAnnotation(key)) => forall text :: !Annotates(w, key, text)
        case Err(NotAByteCount(key)) => exists text :: Annotates(w, key, text) && Decimal.ParseInt(text).None?
        case Err(LayerMediaType(k)) =>
          && k < |w.layers| && !Types(w.layers[k].mediaType, "application/vnd.bigoci.file.part.v1")
          && forall j :: 0 <= j < k ==> Types(w.layers[j].mediaType, "application/vnd.bigoci.file.part.v1")
        case _ => true
  {
    ValidateBlamesContent(utf8, w);
    if KindMatches(w) && w.schemaVersion == 2 && ConfigMatches(w.config) && Decode(utf8, w).Err? {
      if Decode(utf8, w).error.NotAByteCount? {
        assert Annotates(w, Decode(utf8, w).error.key, Annotation(w, Decode(utf8, w).error.key));
      }
      forall j | 0 <= j < FirstForeign(w.layers, 0)
        ensures Types(w.layers[j].mediaType, "application/vnd.bigoci.file.part.v1")
      {
        assert IsPartLayer(w.layers[j]);
      }
    }
  }

  lemma DecodedFrom(utf8: string -> bool, w: WireManifest, a: Artifact)
    requires Decode(utf8, w) == Ok(a)
    ensures KindMatches(w) && w.schemaVersion == SCHEMA_VERSION && ConfigMatches(w.config)
    ensures ReadAnnotations(w) == Ok(a.(parts := [])) && LayerParts(w.layers) == Ok(a.parts)
  {
  }

  lemma ValidateBlamesContent(utf8: string -> bool, w: WireManifest)
    ensures KindMatches(w) ==> Decode(utf8, w) != Err(NotBigociArtifact)
    ensures ReadAnnotations(w).Ok? && LayerParts(w.layers).Ok? ==>
              var a := ReadAnnotations(w).value.(parts := LayerParts(w.layers).value);
              Validate(utf8, a).None? || OfContent(Validate(utf8, a).value)
  {
  }

  ghost predicate OfContent(e: ManifestError) {
    || e.InvalidTitle? || e.InvalidDigest? || e.NoParts? || e.SplitRefused? || e.PartCountMismatch? || e.PartSizeMismatch?
  }

  /** What is written of an artifact: the types in their own case, the decimal sizes, one layer a part, and a title
      only when there is one. */
  lemma WhatIsWritten(utf8: string -> bool, a: Artifact)
    requires WellFormed(utf8, a)
    ensures
      var w := Encoded(utf8, a).value;
      && Describes(utf8, w, a)
      && w.mediaType == "application/vnd.oci.image.manifest.v1+json" && w.artifactType == "application/vnd.bigoci.file.v1"
      && w.config.mediaType == "application/vnd.oci.empty.v1+json" && w.config.data == ""
      && (forall i :: 0 <= i < |w.layers| ==> w.layers[i].mediaType == "application/vnd.bigoci.file.part.v1")
      && WritesAnnotations(w.annotations, a)
  {
    DecodeInvertsEncode(utf8, a);
    ReadExactlyWhatDescribes(utf8, Encoded(utf8, a).value, a);
    AnnotationsAreWritten(a);
  }

  ghost predicate WritesAnnotations(annotations: map<string, string>, a: Artifact) {
    && annotations.Keys ==
       {"io.bigoci.file.digest", "io.bigoci.file.size", "io.bigoci.part.size"}
       + (if a.title == "" then {} else {"org.opencontainers.image.title"})
    && annotations["io.bigoci.file.size"] == Decimal.FormatInt(a.fileSize)
    && annotations["io.bigoci.part.size"] == Decimal.FormatInt(a.partSize)
  }

  lemma AnnotationsAreWritten(a: Artifact)
    ensures WritesAnnotations(AnnotationsOf(a), a)
  {
    KeysDiffer();
  }
}
