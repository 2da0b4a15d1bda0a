/**
 * DocumentSignatureManager: the list of current signatures of a document,
 * adding and removing a signature, and reading the signatures back.
 *
 * What the manager asks of XMLSignatureHelper, of the signature streams
 * and of the package is recorded, in order, as a log of steps; the helper
 * itself is not modelled. The list of package elements to sign and the
 * signatures the helper collects while reading are inputs.
 */
module SignatureManager {
  import opened SigStruct
  import opened ManifestClassifier
  import opened StreamResolver

  /**
   * A certificate as the manager sees it: issuer name, serial number as
   * the serial-number adapter writes it, the Base64 of its encoded form and,
   * when the implementation offers it, the Base64 of its SHA-256 thumbprint.
   */
  datatype Certificate = Certificate(issuerName: string, serialNumber: string, encoded: string,
                                     sha256Thumbprint: Option<string>)

  /** The certificate digest handed to the helper: the thumbprint, or "" without one. */
  function CertDigest(c: Certificate): string
  {
    if c.sha256Thumbprint.Some? then c.sha256Thumbprint.value else ""
  }

  /** One thing the manager asks of the signature helper, the signature stream or storage. */
  datatype Step =
    | StartMission
    | EndMission
    | SetX509Certificate(securityId: int, issuerName: string, serialNumber: string, certificate: string,
                         certDigest: string)
    | AddForSigning(securityId: int, uri: string, binary: bool)
    | SetDateTime(securityId: int, now: DateTime)
    | SetDescription(securityId: int, description: string)
    | TruncateStream
    | SeekStream
    | OpenWriter
    | ExportSignature(info: SignatureInformation)
    | CreateAndWriteSignature
    | CloseDocumentHandler
    | EnsureSignaturesRelation
    | ExportSignatureRelations(count: int)
    | ExportOOXMLSignature(info: SignatureInformation, index: int)
    | CreateAndWriteOOXMLSignature(index: int)
    | Commit
    | CloseOutput
    | ReadAndVerifySignature
    | ReadAndVerifySignatureStorage(cacheLastSignature: bool)

  /** Every element is registered for signing, in order, as binary exactly when it is not XML. */
  function SigningSteps(securityId: int, elements: seq<string>, manifest: seq<seq<PropertyValue>>,
                        matches: (string, string) -> bool, testMode: bool): (r: seq<Step>)
    ensures |r| == |elements|
    ensures forall i :: 0 <= i < |elements| ==>
      r[i] == AddForSigning(securityId, elements[i], !IsXml(manifest, elements[i], matches, testMode))
    decreases |elements|
  {
    if elements == [] then []
    else
      var last := elements[|elements| - 1];
      SigningSteps(securityId, elements[..|elements| - 1], manifest, matches, testMode)
        + [AddForSigning(securityId, last, !IsXml(manifest, last, matches, testMode))]
  }

  /** The ODF writer gets every record, in order. */
  function OdfExports(infos: seq<SignatureInformation>): (r: seq<Step>)
    ensures |r| == |infos| && forall i :: 0 <= i < |infos| ==> r[i] == ExportSignature(infos[i])
    decreases |infos|
  {
    if infos == [] then [] else OdfExports(infos[..|infos| - 1]) + [ExportSignature(infos[|infos| - 1])]
  }

  /** The OOXML exports number the records from 1 on, in order. */
  function OoxmlExports(infos: seq<SignatureInformation>): (r: seq<Step>)
    ensures |r| == |infos| && forall i :: 0 <= i < |infos| ==> r[i] == ExportOOXMLSignature(infos[i], i + 1)
    decreases |infos|
  {
    if infos == [] then [] else OoxmlExports(infos[..|infos| - 1]) + [ExportOOXMLSignature(infos[|infos| - 1], |infos|)]
  }

  /**
   * Writing the signatures for ODF: one writer session with every old record
   * and, when adding, the new signature after them.
   */
  function OdfWriteSteps(infos: seq<SignatureInformation>, withNew: bool): seq<Step>
  {
    [OpenWriter] + OdfExports(infos) + (if withNew then [CreateAndWriteSignature] else []) + [CloseDocumentHandler]
  }

  /**
   * Writing the signatures for OOXML: the signatures relation when adding,
   * the relations part, the old records numbered from 1 and, when adding,
   * the new one after them; then commit and close.
   */
  function OoxmlWriteSteps(infos: seq<SignatureInformation>, withNew: bool): seq<Step>
  {
    var count := |infos| + if withNew then 1 else 0;
    (if withNew then [EnsureSignaturesRelation] else []) + [ExportSignatureRelations(count)]
      + OoxmlExports(infos) + (if withNew then [CreateAndWriteOOXMLSignature(count)] else []) + [Commit, CloseOutput]
  }

  /** The signatures written to the freshly opened temporary target, by format. */
  function WriteSteps(format: StorageFormat, infos: seq<SignatureInformation>, withNew: bool): (r: seq<Step>)
    ensures format != Ofopxml ==>
      (|r| == |infos| + (if withNew then 3 else 2) && r[0] == OpenWriter && r[|r| - 1] == CloseDocumentHandler
       && (withNew ==> r[|r| - 2] == CreateAndWriteSignature)
       && forall i :: 0 <= i < |infos| ==> r[i + 1] == ExportSignature(infos[i]))
    ensures format == Ofopxml ==>
      (|r| == |infos| + (if withNew then 5 else 3) && r[|r| - 2] == Commit && r[|r| - 1] == CloseOutput
       && (withNew ==> r[0] == EnsureSignaturesRelation && r[|r| - 3] == CreateAndWriteOOXMLSignature(|infos| + 1))
       && r[if withNew then 1 else 0] == ExportSignatureRelations(|infos| + if withNew then 1 else 0)
       && forall i :: 0 <= i < |infos| ==> r[i + (if withNew then 2 else 1)] == ExportOOXMLSignature(infos[i], i + 1))
  {
    if format != Ofopxml then OdfWriteSteps(infos, withNew) else OoxmlWriteSteps(infos, withNew)
  }

  /** What is done to a stream after it is resolved. */
  function ActionSteps(a: StreamAction): seq<Step>
  {
    match a
    case Truncate => [TruncateStream]
    case SeekStart => [SeekStream]
    case NoAction => []
  }

  /** The steps of a successful add, from startMission to endMission. */
  function AddSteps(securityId: int, c: Certificate, description: string, now: DateTime, elements: seq<string>,
                    manifest: seq<seq<PropertyValue>>, matches: (string, string) -> bool, testMode: bool,
                    format: StorageFormat, infos: seq<SignatureInformation>): seq<Step>
  {
    [StartMission, SetX509Certificate(securityId, c.issuerName, c.serialNumber, c.encoded, CertDigest(c))]
      + SigningSteps(securityId, elements, manifest, matches, testMode)
      + [SetDateTime(securityId, now), SetDescription(securityId, description)]
      + RewriteSteps(format, infos, true)
      + [EndMission]
  }

  /**
   * Rewriting the signature target: a non-OFOPXML temporary stream is
   * truncated, then the signatures are written to it.
   */
  function RewriteSteps(format: StorageFormat, infos: seq<SignatureInformation>, withNew: bool): (r: seq<Step>)
    ensures format != Ofopxml ==> |r| == |infos| + (if withNew then 4 else 3) && r[0] == TruncateStream && r[1] == OpenWriter
    ensures format == Ofopxml ==> TruncateStream !in r && |r| >= 3 && r[|r| - 1] == CloseOutput
  {
    (if format != Ofopxml then [TruncateStream] else []) + WriteSteps(format, infos, withNew)
  }

  /** The steps of read once the stream is resolved: verify what the resolved stream or storage holds. */
  function ReadSteps(h: StreamHelper, a: StreamAction, cacheLastSignature: bool): (r: seq<Step>)
    ensures 2 <= |r| <= 4 && r[0] == StartMission && r[|r| - 1] == EndMission
    ensures (TruncateStream in r <==> a == Truncate) && (SeekStream in r <==> a == SeekStart)
  {
    [StartMission] + ActionSteps(a)
      + (if h.format != Ofopxml && h.stream != NoStream then [ReadAndVerifySignature]
         else if h.format == Ofopxml && h.storage != NoStorage then [ReadAndVerifySignatureStorage(cacheLastSignature)]
         else [])
      + [EndMission]
  }

  /** remove's erase: the record at `pos` leaves, the others keep their order. */
  function Erase(infos: seq<SignatureInformation>, pos: nat): (r: seq<SignatureInformation>)
    requires pos < |infos|
    ensures |r| == |infos| - 1
    ensures forall i :: 0 <= i < pos ==> r[i] == infos[i]
    ensures forall i :: pos <= i < |r| ==> r[i] == infos[i + 1]
    ensures multiset(r) + multiset{infos[pos]} == multiset(infos)
  {
    assert infos == infos[..pos] + [infos[pos]] + infos[pos + 1..];
    infos[..pos] + infos[pos + 1..]
  }

  // ---------------------------------------------------------------------
  // What the step lists say
  // ---------------------------------------------------------------------

  /**
   * Adding in OOXML: the relations part is ensured, the relation count is
   * the old count plus one, the old records are exported as numbers 1..n in
   * order and the new signature is number n + 1; then commit and close.
   */
  lemma OoxmlAddOrder(infos: seq<SignatureInformation>)
    ensures var r := WriteSteps(Ofopxml, infos, true); var n := |infos|;
      && |r| == n + 5
      && r[0] == EnsureSignaturesRelation && r[1] == ExportSignatureRelations(n + 1)
      && (forall i :: 0 <= i < n ==> r[2 + i] == ExportOOXMLSignature(infos[i], i + 1))
      && r[n + 2] == CreateAndWriteOOXMLSignature(n + 1) && r[n + 3] == Commit && r[n + 4] == CloseOutput
  {
    var n := |infos|;
    var e := OoxmlExports(infos);
    var r := [EnsureSignaturesRelation] + [ExportSignatureRelations(n + 1)] + e
      + [CreateAndWriteOOXMLSignature(n + 1)] + [Commit, CloseOutput];
    assert WriteSteps(Ofopxml, infos, true) == r;
    forall i | 0 <= i < n
      ensures r[2 + i] == ExportOOXMLSignature(infos[i], i + 1)
    {
      assert r[2 + i] == e[i];
    }
  }

  /** Removing in OOXML: the relation count is the remaining count, and the remaining records are numbered 1..n. */
  lemma OoxmlRemoveOrder(infos: seq<SignatureInformation>)
    ensures var r := WriteSteps(Ofopxml, infos, false); var n := |infos|;
      && |r| == n + 3 && r[0] == ExportSignatureRelations(n)
      && (forall i :: 0 <= i < n ==> r[1 + i] == ExportOOXMLSignature(infos[i], i + 1))
      && r[n + 1] == Commit && r[n + 2] == CloseOutput
  {
    var n := |infos|;
    var e := OoxmlExports(infos);
    var r := [ExportSignatureRelations(n)] + e + [Commit, CloseOutput];
    assert WriteSteps(Ofopxml, infos, false) == r;
    forall i | 0 <= i < n
      ensures r[1 + i] == ExportOOXMLSignature(infos[i], i + 1)
    {
      assert r[1 + i] == e[i];
    }
  }

  /** In ODF every old record is written, in order, before the new signature, in one writer session. */
  lemma OdfAddOrder(infos: seq<SignatureInformation>, format: StorageFormat)
    requires format != Ofopxml
    ensures var r := WriteSteps(format, infos, true); var n := |infos|;
      && |r| == n + 3 && r[0] == OpenWriter
      && (forall i :: 0 <= i < n ==> r[1 + i] == ExportSignature(infos[i]))
      && r[n + 1] == CreateAndWriteSignature && r[n + 2] == CloseDocumentHandler
  {
    var n := |infos|;
    var e := OdfExports(infos);
    var r := [OpenWriter] + e + [CreateAndWriteSignature] + [CloseDocumentHandler];
    assert WriteSteps(format, infos, true) == r;
    forall i | 0 <= i < n
      ensures r[1 + i] == ExportSignature(infos[i])
    {
      assert r[1 + i] == e[i];
    }
  }

  /** Where the parts of an add's steps sit, for any parts of those lengths. */
  lemma AddLayout(head: seq<Step>, signing: seq<Step>, mid: seq<Step>, rewrite: seq<Step>, last: Step)
    requires |head| == 2 && |mid| == 2
    ensures var r := head + signing + mid + rewrite + [last];
      && |r| == |signing| + |rewrite| + 5 && r[0] == head[0] && r[1] == head[1]
      && (forall k :: 0 <= k < |signing| ==> r[2 + k] == signing[k])
      && r[|signing| + 2] == mid[0] && r[|signing| + 3] == mid[1] && r[|r| - 1] == last
  {
  }

  /**
   * A successful add runs one mission: it starts with startMission, ends
   * with endMission, certifies under the new id right after starting,
   * registers element k right after that, as binary exactly when it is not
   * XML, and sets date and description right after the elements.
   */
  lemma AddRegistersElements(securityId: int, c: Certificate, description: string, now: DateTime, elements: seq<string>,
                             manifest: seq<seq<PropertyValue>>, matches: (string, string) -> bool, testMode: bool,
                             format: StorageFormat, infos: seq<SignatureInformation>)
    ensures var r := AddSteps(securityId, c, description, now, elements, manifest, matches, testMode, format, infos);
      && |r| > |elements| + 4
      && r[0] == StartMission && r[|r| - 1] == EndMission
      && r[1] == SetX509Certificate(securityId, c.issuerName, c.serialNumber, c.encoded, CertDigest(c))
      && (forall k :: 0 <= k < |elements| ==>
            r[2 + k] == AddForSigning(securityId, elements[k], !IsXml(manifest, elements[k], matches, testMode)))
      && r[|elements| + 2] == SetDateTime(securityId, now) && r[|elements| + 3] == SetDescription(securityId, description)
  {
    var signing := SigningSteps(securityId, elements, manifest, matches, testMode);
    var head := [StartMission, SetX509Certificate(securityId, c.issuerName, c.serialNumber, c.encoded, CertDigest(c))];
    var mid := [SetDateTime(securityId, now), SetDescription(securityId, description)];
    var rewrite := RewriteSteps(format, infos, true);
    assert AddSteps(securityId, c, description, now, elements, manifest, matches, testMode, format, infos)
      == head + signing + mid + rewrite + [EndMission];
    AddLayout(head, signing, mid, rewrite, EndMission);
  }

  /**
   * Reading verifies the stream for ODF and the storage for OOXML, each only
   * when it is there, inside one mission.
   */
  lemma ReadVerifiesByFormat(h: StreamHelper, a: StreamAction, cacheLastSignature: bool)
    ensures var r := ReadSteps(h, a, cacheLastSignature);
      && r[0] == StartMission && r[|r| - 1] == EndMission
      && (ReadAndVerifySignature in r <==> h.format != Ofopxml && h.stream != NoStream)
      && (ReadAndVerifySignatureStorage(cacheLastSignature) in r <==> h.format == Ofopxml && h.storage != NoStorage)
  {
  }

  // ---------------------------------------------------------------------
  // The manager
  // ---------------------------------------------------------------------

  /** The ODF export loop: every record goes to the writer, in order. */
  method OdfExportAll(infos: seq<SignatureInformation>) returns (steps: seq<Step>)
    ensures steps == OdfExports(infos)
  {
    steps := [];
    for n := 0 to |infos|
      invariant steps == OdfExports(infos[..n])
    {
      assert infos[..n + 1][..n] == infos[..n];
      steps := steps + [ExportSignature(infos[n])];
    }
    assert infos[..|infos|] == infos;
  }

  /** The OOXML export loop: record i is exported as signature number i + 1. */
  method OoxmlExportAll(infos: seq<SignatureInformation>) returns (steps: seq<Step>)
    ensures steps == OoxmlExports(infos)
  {
    steps := [];
    for i := 0 to |infos|
      invariant steps == OoxmlExports(infos[..i])
    {
      assert infos[..i + 1][..i] == infos[..i];
      steps := steps + [ExportOOXMLSignature(infos[i], i + 1)];
    }
    assert infos[..|infos|] == infos;
  }

  /** The helper a temporary open never consults. */
  const NO_PACKAGE_HELPER: StreamHelper := StreamHelper(Package, NoStream, NoStorage)

  class DocumentSignatureManager {
    /** DocumentSignatureHelper::equalsReferenceUriManifestPath, not modelled. */
    const equalsReferenceUriManifestPath: (string, string) -> bool
    /** The LO_TESTNAME switch of isXML. */
    const testMode: bool
    /** mxStore: the names of its entries, or None for a null storage. */
    var store: Option<set<string>>
    var currentSignatureInformations: seq<SignatureInformation>
    var manifest: seq<seq<PropertyValue>>
    /** mxSignatureStream.is(). */
    var hasSignatureStream: bool
    var tempSignatureStream: Option<nat>
    var tempSignatureStorage: Option<nat>
    /** How many temporary files have been created (the next one's number). */
    var createdTempFiles: nat
    /** The id counter behind the signature helper's GetNewSecurityId. */
    var nextSecurityId: int
    /** Everything asked of the signature helper and the streams so far. */
    var log: seq<Step>

    function Temp(): TempState
      reads this
    {
      TempState(tempSignatureStream, tempSignatureStorage, createdTempFiles)
    }

    ghost predicate Valid()
      reads this
    {
      TempValid(Temp()) && nextSecurityId >= 1
    }

    constructor (matches: (string, string) -> bool, testNameSet: bool)
      ensures Valid() && equalsReferenceUriManifestPath == matches && testMode == testNameSet
      ensures store.None? && currentSignatureInformations == [] && manifest == [] && !hasSignatureStream
      ensures tempSignatureStream.None? && tempSignatureStorage.None? && nextSecurityId == 1 && log == []
    {
      equalsReferenceUriManifestPath := matches;
      testMode := testNameSet;
      store := None;
      currentSignatureInformations := [];
      manifest := [];
      hasSignatureStream := false;
      tempSignatureStream := None;
      tempSignatureStorage := None;
      createdTempFiles := 0;
      nextSecurityId := 1;
      log := [];
    }

    /** isXML: the manifest lookup with early exit, then the extension fallback. */
    method IsXML(uri: string) returns (isXml: bool)
      ensures isXml == IsXml(manifest, uri, equalsReferenceUriManifestPath, testMode)
    {
      if testMode {
        return true;
      }
      isXml := false;
      var propsAvailable := false;
      var i := 0;
      while i < |manifest|
        invariant 0 <= i <= |manifest|
        invariant forall k :: 0 <= k < i ==> !equalsReferenceUriManifestPath(uri, ScanEntry(manifest[k]).path)
      {
        var entry := manifest[i];
        var path, mediaType, encrypted := "", "", false;
        for j := 0 to |entry|
          invariant EntryProps(path, mediaType, encrypted) == ScanEntry(entry[..j])
        {
          assert entry[..j + 1][..j] == entry[..j];
          var prop := entry[j];
          if prop.name == FULL_PATH {
            if prop.value.StringValue? { path := prop.value.text; }
          } else if prop.name == MEDIA_TYPE {
            if prop.value.StringValue? { mediaType := prop.value.text; }
          } else if prop.name == DIGEST {
            encrypted := true;
          }
        }
        assert entry[..|entry|] == entry;
        if equalsReferenceUriManifestPath(uri, path) {
          isXml := mediaType == XML_MEDIA_TYPE && !encrypted;
          propsAvailable := true;
          break;
        }
        i := i + 1;
      }
      if !propsAvailable {
        var sep := Text.LastIndexOf(uri, '.');
        if sep != -1 {
          var ext := uri[sep + 1..];
          if Text.EqualsIgnoreAsciiCase(ext, XML_EXTENSION) {
            isXml := true;
          }
        }
      }
    }

    /** ImplOpenSignatureStream: the stream and storage to use, and what is done to the stream. */
    method ImplOpenSignatureStream(mode: bv32, useTemp: bool, fromPackage: StreamHelper) returns (r: Resolution)
      requires Valid()
      modifies this`tempSignatureStream, this`tempSignatureStorage, this`createdTempFiles
      ensures Valid()
      ensures r == Resolve(store, mode, useTemp, old(Temp()), hasSignatureStream, fromPackage)
      ensures Temp() == if r.Resolved? then r.temp else old(Temp())
    {
      var helper := StreamHelper(Package, NoStream, NoStorage);
      if store.Some? && CONTENT_TYPES in store.value {
        helper := helper.(format := Ofopxml);
      }
      if useTemp {
        if mode & TRUNCATE != 0 {
          tempSignatureStream := Some(createdTempFiles);
          createdTempFiles := createdTempFiles + 1;
          if helper.format != Ofopxml {
            helper := helper.(stream := TempStream(tempSignatureStream.value));
          } else {
            tempSignatureStorage := tempSignatureStream;
            helper := helper.(storage := TempStorage(tempSignatureStorage.value));
          }
        }
        helper := helper.(stream := if tempSignatureStream.Some? then TempStream(tempSignatureStream.value) else NoStream);
        if helper.format == Ofopxml {
          helper := helper.(storage := if tempSignatureStorage.Some? then TempStorage(tempSignatureStorage.value) else NoStorage);
        }
      } else {
        if !hasSignatureStream {
          helper := fromPackage;
        } else {
          helper := helper.(stream := DedicatedStream);
        }
      }
      var action := NoAction;
      if mode & TRUNCATE != 0 {
        if helper.stream != NoStream && helper.format != Ofopxml {
          action := Truncate;
        }
      } else if useTemp || hasSignatureStream {
        if helper.stream == NoStream {
          return NullStreamThrown;
        }
        action := SeekStart;
      }
      r := Resolved(helper, action, Temp());
    }

    /**
     * add: rejects a null certificate or an empty serial number without
     * touching anything; otherwise runs one signing mission under a new id,
     * writes old signatures and the new one to a fresh temporary target, and
     * reports success. `securityId` keeps its incoming value on rejection.
     */
    method Add(cert: Option<Certificate>, description: string, securityIdIn: int, elements: seq<string>, now: DateTime)
      returns (ok: bool, securityId: int)
      requires Valid()
      modifies this`nextSecurityId, this`log, this`tempSignatureStream, this`tempSignatureStorage, this`createdTempFiles
      ensures Valid()
      ensures ok <==> cert.Some? && cert.value.serialNumber != ""
      ensures !ok ==> securityId == securityIdIn && log == old(log) && nextSecurityId == old(nextSecurityId)
                      && Temp() == old(Temp())
      ensures ok ==> securityId == old(nextSecurityId) && nextSecurityId == securityId + 1
      ensures ok ==> Temp() == Resolve(store, WRITE | TRUNCATE, true, old(Temp()), hasSignatureStream, NO_PACKAGE_HELPER).temp
      ensures ok ==> log == old(log) + AddSteps(securityId, cert.value, description, now, elements, manifest,
        equalsReferenceUriManifestPath, testMode, ProbeFormat(store), currentSignatureInformations)
    {
      securityId := securityIdIn;
      if cert.None? {
        return false, securityId;
      }
      var c := cert.value;
      if c.serialNumber == "" {
        return false, securityId;
      }
      securityId := nextSecurityId;
      nextSecurityId := nextSecurityId + 1;
      var signing := RegisterElements(securityId, elements);
      var rewrite := Rewrite(true);
      log := log + ([StartMission, SetX509Certificate(securityId, c.issuerName, c.serialNumber, c.encoded, CertDigest(c))]
        + signing + [SetDateTime(securityId, now), SetDescription(securityId, description)] + rewrite + [EndMission]);
      ok := true;
    }

    /** The element loop of add: each element is registered as binary exactly when isXML says it is not XML. */
    method RegisterElements(securityId: int, elements: seq<string>) returns (steps: seq<Step>)
      ensures steps == SigningSteps(securityId, elements, manifest, equalsReferenceUriManifestPath, testMode)
    {
      steps := [];
      for n := 0 to |elements|
        invariant steps == SigningSteps(securityId, elements[..n], manifest, equalsReferenceUriManifestPath, testMode)
      {
        var isXml := IsXML(elements[n]);
        assert elements[..n + 1][..n] == elements[..n];
        steps := steps + [AddForSigning(securityId, elements[n], !isXml)];
      }
      assert elements[..|elements|] == elements;
    }

    /**
     * The tail shared by add and remove: open a fresh temporary target with
     * WRITE | TRUNCATE, truncate it when it is a plain stream, and write the
     * signatures to it.
     */
    method Rewrite(withNew: bool) returns (steps: seq<Step>)
      requires Valid()
      modifies this`tempSignatureStream, this`tempSignatureStorage, this`createdTempFiles
      ensures Valid()
      ensures Temp() == Resolve(store, WRITE | TRUNCATE, true, old(Temp()), hasSignatureStream, NO_PACKAGE_HELPER).temp
      ensures steps == RewriteSteps(ProbeFormat(store), currentSignatureInformations, withNew)
    {
      var resolved := ImplOpenSignatureStream(WRITE | TRUNCATE, true, NO_PACKAGE_HELPER);
      assert resolved.helper.format == ProbeFormat(store);
      assert ActionSteps(resolved.action) == if ProbeFormat(store) != Ofopxml then [TruncateStream] else [];
      var written := WriteSignatures(resolved.helper.format, withNew);
      steps := ActionSteps(resolved.action) + written;
    }

    /**
     * The export part shared by add and remove: for ODF a writer session
     * over the current records (and the new signature); for OOXML the
     * relations, the records numbered from 1 (and the new one), commit, close.
     */
    method WriteSignatures(format: StorageFormat, withNew: bool) returns (steps: seq<Step>)
      ensures steps == WriteSteps(format, currentSignatureInformations, withNew)
    {
      var infos := currentSignatureInformations;
      if format != Ofopxml {
        var exports := OdfExportAll(infos);
        steps := [OpenWriter] + exports + (if withNew then [CreateAndWriteSignature] else []) + [CloseDocumentHandler];
      } else {
        var count := |infos| + if withNew then 1 else 0;
        var exports := OoxmlExportAll(infos);
        steps := (if withNew then [EnsureSignaturesRelation] else []) + [ExportSignatureRelations(count)] + exports
          + (if withNew then [CreateAndWriteOOXMLSignature(count)] else []) + [Commit, CloseOutput];
      }
    }

    /**
     * remove: erases the record at `position` (which the caller must keep in
     * range), then rewrites the remaining ones to a fresh temporary target.
     */
    method Remove(position: nat)
      requires Valid() && position < |currentSignatureInformations| && position < 0x1_0000
      modifies this`currentSignatureInformations, this`log, this`tempSignatureStream, this`tempSignatureStorage,
        this`createdTempFiles
      ensures Valid()
      ensures currentSignatureInformations == Erase(old(currentSignatureInformations), position)
      ensures Temp() == Resolve(store, WRITE | TRUNCATE, true, old(Temp()), hasSignatureStream, NO_PACKAGE_HELPER).temp
      ensures log == old(log) + RewriteSteps(ProbeFormat(store), currentSignatureInformations, false)
    {
      currentSignatureInformations := Erase(currentSignatureInformations, position);
      var rewrite := Rewrite(false);
      log := log + rewrite;
    }

    /**
     * read: clears the list, verifies what the resolved stream or storage
     * holds inside one mission, and then takes the records the helper
     * collected (`collected`). A temporary read without a temporary stream
     * throws on rewinding, after the list was cleared and the mission started.
     */
    method Read(useTempStream: bool, cacheLastSignature: bool, fromPackage: StreamHelper,
                collected: seq<SignatureInformation>) returns (thrown: bool)
      requires Valid()
      modifies this`currentSignatureInformations, this`log, this`tempSignatureStream, this`tempSignatureStorage,
        this`createdTempFiles
      ensures Valid() && Temp() == old(Temp())
      ensures var r := Resolve(store, READ, useTempStream, old(Temp()), hasSignatureStream, fromPackage);
        && (thrown <==> r.NullStreamThrown?)
        && (thrown ==> currentSignatureInformations == [] && log == old(log) + [StartMission])
        && (!thrown ==> currentSignatureInformations == collected &&
                        log == old(log) + ReadSteps(r.helper, r.action, cacheLastSignature))
    {
      currentSignatureInformations := [];
      var resolved := ImplOpenSignatureStream(READ, useTempStream, fromPackage);
      ReadKeepsTemp(store, useTempStream, old(Temp()), hasSignatureStream, fromPackage);
      if resolved.NullStreamThrown? {
        log := log + [StartMission];
        return true;
      }
      var h := resolved.helper;
      var verify: seq<Step> := [];
      if h.format != Ofopxml && h.stream != NoStream {
        verify := [ReadAndVerifySignature];
      } else if h.format == Ofopxml && h.storage != NoStorage {
        verify := [ReadAndVerifySignatureStorage(cacheLastSignature)];
      }
      log := log + ([StartMission] + ActionSteps(resolved.action) + verify + [EndMission]);
      currentSignatureInformations := collected;
      thrown := false;
    }
  }
}
