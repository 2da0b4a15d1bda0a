# XML signature controller and document signature manager

This project is a Dafny model of two parts of the document signing code in
LibreOffice's `xmlsecurity` module:

- **XSecController.** This is the state machine that splices a
  SAXEventKeeper into a SAX chain. The keeper is spliced in while an element
  is being collected or the event stream is blocking. While it is not spliced
  in, an ElementStackKeeper keeps the key events it would miss. Beside the
  chain, the controller hands out security ids, keeps a table of signature
  records, and serialises a record either as an XML signature for ODF packages
  (W3C XML Signature Syntax and Processing, section 4) or as an OOXML package
  signature. The OOXML form uses the package relationship transform of
  ECMA-376 Part 2, clause 13, plus XAdES qualifying properties (ETSI TS 101
  903). It also skips blacklisted parts and relationship types.
- **DocumentSignatureManager.** It owns the list of a document's current
  signatures. It decides whether a package stream is XML, using the manifest
  or else the file extension. It adds a signature, removes one and reads them
  back. It also picks the signature stream and sub-storage each operation
  works on: a temporary one, the dedicated one, or one opened from the
  package.

The files and modules are:

| file | module | contents |
|---|---|---|
| `xml_events.dfy` | `XmlEvents` | Document-handler events, element trees, well-nestedness, and selecting children by name. |
| `sig_struct.dfy` | `SigStruct` | Signature records and reference records. |
| `text.dfy` | `Text` | Prefix, suffix and index functions on strings, and ASCII case folding. |
| `sax_chain.dfy` | `SaxChain` | The splice logic of XSecController on values, and its lemmas. |
| `xsec_controller.dfy` | `XSecControl` | `class XSecController`. Each method is tied to the function of `SaxChain` or to the table function that specifies it. |
| `signature_export.dfy` | `SignatureExport` | `exportSignature`, `exportOOXMLSignature`, the two blacklists, and what each serialiser writes. |
| `manifest_classifier.dfy` | `ManifestClassifier` | `isXML` on values. |
| `stream_resolver.dfy` | `StreamResolver` | How `ImplOpenSignatureStream` decides, on values. |
| `document_signature_manager.dfy` | `SignatureManager` | `class DocumentSignatureManager`, plus the step lists that specify add, remove and read. |

How the model stands in for the source:

- **Serialisers.** A serialiser is a function from a record to the sequence
  of SAX events it sends. The lemmas state which children each element has,
  in which order, and under which conditions.
- **Controller and manager.** Both are classes whose methods update fields in
  place, as the source does. Each method's `ensures` ties its new state to a
  specification function of the old state. The properties are proved about
  those functions.
- **What the manager asks of the helper.** The manager's calls to the
  signature helper and to the streams are recorded as a log of steps. The
  helper itself is not modelled.
- **Where the code and its own comments disagree, the model follows the
  code.**
  - `endMission` calls endMission on every record's signature creator or
    verifier, but it does not empty the record table, although its comment
    says it deletes all signature information. In the model, `EndMission`
    keeps `signatureInfos`. `StartMission` is what clears them.
  - `read` with the temporary stream, when no temporary stream exists yet,
    throws from `UNO_QUERY_THROW` while rewinding. This happens after the
    list was cleared and the mission was started. `Read` models this as
    `thrown`.
  - With a temporary stream and `TRUNCATE`, an OFOPXML open hands back both
    the new stream and the storage wrapping it. For the other formats the
    storage is kept but not handed out.

## Model

| member | source | states |
|---|---|---|
| XSecControl.IndexOfId | xmlsecurity/source/helper/xsecctl.cxx:80-117 | The index of the first record with the id, or -1 exactly when no record has it. |
| XSecControl.SecurityIds | xmlsecurity/source/helper/xsecctl.cxx:629-685 | The security ids of the records, in table order. |
| XSecControl.XSecController.constructor | xmlsecurity/source/helper/xsecctl.cxx:57-70 | The counter starts at 1. The chain is unconnected, not sticky, not collecting, not blocking, with components UNINITIALIZED. There are no records, no reserved id, and no verification in progress. |
| XSecControl.XSecController.FindSignatureInfor | xmlsecurity/source/helper/xsecctl.cxx:80-117 | The loop returns the first index whose record carries the id, or -1 exactly when the id is absent. |
| XSecControl.XSecController.GetSignatureInformation | xmlsecurity/source/helper/xsecctl.cxx:1352-1362 | Returns the first record with the id when it is present. Otherwise it returns a blank record with id 0. |
| XSecControl.XSecController.GetSignatureInformations | xmlsecurity/source/helper/xsecctl.cxx:1364-1376 | The copy loop returns every record, in order. |
| XSecControl.XSecController.SignatureCreated | xmlsecurity/source/helper/xsecctl.cxx:1416-1423 | The record with the id gets the status. Every other record is unchanged. |
| XSecControl.XSecController.SignatureVerified | xmlsecurity/source/helper/xsecctl.cxx:1428-1435 | The same, for the verification status. |
| XSecControl.XSecController.GetNewSecurityId | xmlsecurity/source/helper/xsecctl.cxx:501-506 | Returns the counter and increments it. Ids handed out are positive and strictly increasing, so no two are equal. |
| XSecControl.XSecController.StartMission | xmlsecurity/source/helper/xsecctl.cxx:508-545 | Takes the binding and the context. Clears the error message and the records. Components return to UNINITIALIZED. The wiring stays consistent. |
| XSecControl.XSecController.EndMission | xmlsecurity/source/helper/xsecctl.cxx:629-685 | When the components are INITIALIZED, the mission of every record's id is ended, in table order. The binding and context are dropped, and the controller stops listening to an existing keeper. The records stay. |
| XSecControl.XSecController.CreateXSecComponent | xmlsecurity/source/helper/xsecctl.cxx:119-208 | The new state is `SaxChain.CreateComponents`. |
| XSecControl.XSecController.ChainOn | xmlsecurity/source/helper/xsecctl.cxx:210-323 | The new state and the result are `SaxChain.ChainOn`. The wiring invariant is kept. |
| XSecControl.XSecController.ChainOff | xmlsecurity/source/helper/xsecctl.cxx:325-384 | The new state is `SaxChain.ChainOff`. The wiring invariant is kept. |
| XSecControl.XSecController.CheckChainingStatus | xmlsecurity/source/helper/xsecctl.cxx:386-421 | The new state is `SaxChain.CheckChaining`. The wiring invariant is kept. |
| XSecControl.XSecController.InitializeSAXChain | xmlsecurity/source/helper/xsecctl.cxx:423-462 | The new state is `SaxChain.InitializeChain`: the flags are cleared and the ElementStackKeeper is started. |
| XSecControl.XSecController.SetSAXChainConnector | xmlsecurity/source/helper/xsecctl.cxx:547-585 | The new state is `SaxChain.SetConnector`. The wiring invariant is kept. |
| XSecControl.XSecController.ClearSAXChainConnector | xmlsecurity/source/helper/xsecctl.cxx:587-627 | The new state is `SaxChain.ClearConnector`. The wiring invariant is kept. |
| XSecControl.XSecController.BlockingStatusChanged | xmlsecurity/source/helper/xsecctl.cxx:1392-1397 | The new state is `SaxChain.BlockingChanged`. The wiring invariant is kept. |
| XSecControl.XSecController.CollectionStatusChanged | xmlsecurity/source/helper/xsecctl.cxx:1399-1405 | The new state is `SaxChain.CollectionChanged`. The wiring invariant is kept. |
| SaxChain.ChainOn | xmlsecurity/source/helper/xsecctl.cxx:210-323 | The flags are kept, and a connected chain stays connected. A true result means the chain was unconnected and is now connected, with INITIALIZED components and a forwarding keeper. |
| SaxChain.ChainOff | xmlsecurity/source/helper/xsecctl.cxx:325-384 | Afterwards the chain is connected exactly when it was connected and sticky. The flags and the status are kept. |
| SaxChain.CheckChaining | xmlsecurity/source/helper/xsecctl.cxx:386-421 | The flags are kept. With both collecting and blocking clear, it acts as chainOff. |
| SaxChain.BlockingChanged | xmlsecurity/source/helper/xsecctl.cxx:1392-1397 | The blocking flag takes the new value. The other flags are kept. |
| SaxChain.CollectionChanged | xmlsecurity/source/helper/xsecctl.cxx:1399-1405 | The collecting flag takes the new value. The other flags are kept. |
| SaxChain.InitializeChain | xmlsecurity/source/helper/xsecctl.cxx:423-462 | The chain is unconnected with collecting and blocking clear, and an existing ElementStackKeeper is started. Status, sticky flag, upstream and previous node are kept. |
| SaxChain.SetConnector | xmlsecurity/source/helper/xsecctl.cxx:547-585 | The previous node and the ElementStackKeeper are the given ones, and the previous node is initializable. The chain is unconnected and unwired, the ElementStackKeeper runs, and the status is kept. |
| SaxChain.ClearConnector | xmlsecurity/source/helper/xsecctl.cxx:587-627 | No previous node and no ElementStackKeeper are left, and nothing runs. Only a sticky chain stays connected. The status is kept. |
| SaxChain.StartMission | xmlsecurity/source/helper/xsecctl.cxx:508-545 | The components are UNINITIALIZED again. The splice and the keeper are kept. |
| SaxChain.EndMission | xmlsecurity/source/helper/xsecctl.cxx:629-685 | The keeper is no longer listened to. The splice, the status and the keeper are kept. |
| SaxChain.InitialWired | xmlsecurity/source/helper/xsecctl.cxx:57-70 | The constructor's chain state satisfies the wiring invariant. |
| SaxChain.CreateComponents | xmlsecurity/source/helper/xsecctl.cxx:119-208 | The status becomes INITIALIZED exactly when all three components were obtained, and FAILTOINITIALIZED otherwise. The keeper is kept and listened to exactly then. The four flags are untouched. |
| SaxChain.ChainOnResult | xmlsecurity/source/helper/xsecctl.cxx:210-323 | chainOn returns true exactly when it moves the chain from unconnected to connected. That requires it was not sticky and ends with the components INITIALIZED. The flags are kept. |
| SaxChain.ChainOnWhenConnectedOrSticky | xmlsecurity/source/helper/xsecctl.cxx:250-253 | When sticky or already connected, chainOn changes nothing and returns false. |
| SaxChain.CreationOnlyWhenUninitialized | xmlsecurity/source/helper/xsecctl.cxx:255-258 | Components are created, and status or keeper change, only from UNINITIALIZED. |
| SaxChain.FailureNotRetried | xmlsecurity/source/helper/xsecctl.cxx:255-262 | In FAILTOINITIALIZED, chainOn changes nothing and returns false, whatever creation would yield. |
| SaxChain.FailureKeepsCallbacksUnspliced | xmlsecurity/source/helper/xsecctl.cxx:1392-1405 | After a failed creation, neither status callback can splice an unspliced chain in. |
| SaxChain.StartMissionRetries | xmlsecurity/source/helper/xsecctl.cxx:538 | After startMission, chainOn tries creation again and succeeds exactly when all components are obtained. |
| SaxChain.ChainOnIdempotent | xmlsecurity/source/helper/xsecctl.cxx:210-323 | A second chainOn changes nothing and returns false. |
| SaxChain.ChainOffIdempotent | xmlsecurity/source/helper/xsecctl.cxx:325-384 | A second chainOff changes nothing. |
| SaxChain.CheckChainingIdempotent | xmlsecurity/source/helper/xsecctl.cxx:386-421 | A second checkChainingStatus changes nothing. |
| SaxChain.ChainOffEffect | xmlsecurity/source/helper/xsecctl.cxx:325-384 | When connected and not sticky: the previous node feeds the next node, the ElementStackKeeper runs, the keeper stops forwarding, and connected is cleared. Otherwise nothing changes. |
| SaxChain.CheckChainingReconciles | xmlsecurity/source/helper/xsecctl.cxx:386-421 | When not sticky with INITIALIZED components, the chain is connected exactly when collecting or blocking. With both flags clear, only a sticky chain stays connected. |
| SaxChain.BlockingReconciles | xmlsecurity/source/helper/xsecctl.cxx:1392-1397 | The blocking flag takes the new value, and the splice is reconciled with the flags. |
| SaxChain.CollectionReconciles | xmlsecurity/source/helper/xsecctl.cxx:1399-1405 | The collecting flag takes the new value, and the splice is reconciled with the flags. |
| SaxChain.ChainOnWired | xmlsecurity/source/helper/xsecctl.cxx:210-323 | chainOn preserves the wiring invariant. When spliced in, the previous node feeds the keeper, the keeper forwards, and the ElementStackKeeper is stopped. |
| SaxChain.ChainOffWired | xmlsecurity/source/helper/xsecctl.cxx:325-384 | chainOff preserves the wiring invariant. |
| SaxChain.CheckChainingWired | xmlsecurity/source/helper/xsecctl.cxx:386-421 | checkChainingStatus preserves the wiring invariant. |
| SaxChain.CallbacksWired | xmlsecurity/source/helper/xsecctl.cxx:1392-1405 | Both status callbacks preserve the wiring invariant. |
| SaxChain.ConnectorWired | xmlsecurity/source/helper/xsecctl.cxx:547-627 | setSAXChainConnector and clearSAXChainConnector preserve the wiring invariant. |
| SaxChain.MissionWired | xmlsecurity/source/helper/xsecctl.cxx:508-685 | startMission and endMission preserve the wiring invariant. |
| SaxChain.KeeperRunsIffUnspliced | xmlsecurity/source/helper/xsecctl.cxx:423-462 | setSAXChainConnector leaves the chain unspliced, with all flags clear and the new ElementStackKeeper running. After clearSAXChainConnector, only a sticky chain stays connected, and no collaborator is left. |
| SignatureExport.ReferenceUri | xmlsecurity/source/helper/xsecctl.cxx:788-797 | A same-document reference's URI is "#" followed by its id. Any other reference's URI is its raw path. |
| SignatureExport.SignatureAttrs | xmlsecurity/source/helper/xsecctl.cxx:745-756 | Signature carries the XML-DSig namespace. It carries Id exactly when the record has a signature id. |
| SignatureExport.DateText | xmlsecurity/source/helper/xsecctl.cxx:943-945 | A stored date text is written verbatim. Otherwise the ISO-8601 form of the date is written. |
| SignatureExport.ExportSignature | xmlsecurity/source/helper/xsecctl.cxx:687-984 | The events are well nested. They open with Signature and its attributes, and close with its end. |
| SignatureExport.OdfReferenceContents | xmlsecurity/source/helper/xsecctl.cxx:783-848 | A Reference has the URI rule, a C14N Transforms exactly for XML streams, and one SHA-1 DigestMethod and DigestValue. |
| SignatureExport.OdfReferencesInOrder | xmlsecurity/source/helper/xsecctl.cxx:783-848 | There is one Reference per record reference, in record order, and nothing else. |
| SignatureExport.OdfSignedInfoContents | xmlsecurity/source/helper/xsecctl.cxx:759-850 | SignedInfo has C14N canonicalization, RSA-SHA1, and the references in order. |
| SignatureExport.OdfKeyInfoContents | xmlsecurity/source/helper/xsecctl.cxx:854-903 | KeyInfo has one X509Data holding the issuer and serial. It holds the certificate only when there is one. |
| SignatureExport.OdfObjectContents | xmlsecurity/source/helper/xsecctl.cxx:906-983 | The date property is always written. The description property is written only for a non-empty description. |
| SignatureExport.OdfSignatureContents | xmlsecurity/source/helper/xsecctl.cxx:687-984 | Signature holds exactly one each of SignedInfo, SignatureValue, KeyInfo and Object. |
| SignatureExport.StoredDateKept | xmlsecurity/source/helper/xsecctl.cxx:943-945 | With a stored date text, the output does not depend on the date formatter. |
| SignatureExport.IsOOXMLBlacklist | xmlsecurity/source/helper/xsecctl.cxx:987-1002 | A stream is blacklisted exactly when its name starts with one of the four blacklisted prefixes. |
| SignatureExport.AnyPrefix | xmlsecurity/source/helper/xsecctl.cxx:997-1001 | True exactly when some prefix from the list starts the name. |
| SignatureExport.RelativeNamesNotBlacklisted | xmlsecurity/source/helper/xsecctl.cxx:987-1002 | A name that does not start with "/" is never blacklisted. |
| SignatureExport.SignaturePartsBlacklisted | xmlsecurity/source/helper/xsecctl.cxx:987-1002 | Every name below /_xmlsignatures is blacklisted. |
| SignatureExport.IsOOXMLRelationBlacklist | xmlsecurity/source/helper/xsecctl.cxx:1005-1017 | A relationship type is blacklisted exactly when it equals one of the three listed types. |
| SignatureExport.Filter | xmlsecurity/source/helper/xsecctl.cxx:1104-1107 | Keeps exactly the elements that satisfy the predicate, and never more than the input. |
| SignatureExport.FilterAppend | xmlsecurity/source/helper/xsecctl.cxx:1104-1107 | Filtering a concatenation filters each part and keeps their order. |
| SignatureExport.FilterCount | xmlsecurity/source/helper/xsecctl.cxx:1104-1107 | An element that satisfies the predicate is kept as often as it occurs. Any other element is dropped entirely. |
| SignatureExport.LastValue | xmlsecurity/source/helper/xsecctl.cxx:1136-1148 | The last pair with the key decides the value. With no such pair the value is "". A non-empty result is the value of some pair with that key. |
| SignatureExport.ScanRelation | xmlsecurity/source/helper/xsecctl.cxx:1136-1148 | The loop keeps the last Id and the last Type of a relationship. |
| SignatureExport.RelationsPath | xmlsecurity/source/helper/xsecctl.cxx:1117-1125 | The storage path is the URI without its leading '/', cut just before its first '?'. It contains no query. |
| SignatureExport.SignatureTimeValue | xmlsecurity/source/helper/xsecctl.cxx:1202-1215 | A stored date text is used verbatim. Otherwise the ISO-8601 form is cut at its first comma and "Z" is appended; without a comma it is kept whole. The result never contains a comma unless one was stored. |
| SignatureExport.OdfSignatureTree | xmlsecurity/source/helper/xsecctl.cxx:687-984 | The tree exportSignature walks is a Signature element with the XML-DSig namespace, carrying the record's Id exactly when it has one. |
| SignatureExport.OoxmlSignatureAttrs | xmlsecurity/source/helper/xsecctl.cxx:1022-1027 | The OOXML Signature element carries the XML-DSig namespace and the Id idPackageSignature. |
| SignatureExport.OoxmlSignatureTree | xmlsecurity/source/helper/xsecctl.cxx:1019-1350 | The tree exportOOXMLSignature walks is a Signature element with the OOXML Signature attributes. |
| SignatureExport.ExportOOXMLSignature | xmlsecurity/source/helper/xsecctl.cxx:1019-1350 | The events are well nested. They open with Signature carrying the namespace and Id idPackageSignature, and close with its end. |
| SignatureExport.OoxmlSignedReferenceAttrs | xmlsecurity/source/helper/xsecctl.cxx:1046-1059 | A same-document Reference is typed SignedProperties exactly for idSignedProperties, and as Object otherwise. Its URI is "#" followed by the id. |
| SignatureExport.OoxmlSignedReferenceContents | xmlsecurity/source/helper/xsecctl.cxx:1059-1078 | Only the idSignedProperties Reference gets a C14N Transforms. Every Reference gets one SHA-256 digest. |
| SignatureExport.OoxmlSignedInfoContents | xmlsecurity/source/helper/xsecctl.cxx:1029-1082 | SignedInfo signs exactly the same-document references, in record order, with RSA-SHA256. |
| SignatureExport.ManifestReferenceUri | xmlsecurity/source/helper/xsecctl.cxx:1109-1113 | A stream Reference carries its raw URI. |
| SignatureExport.ManifestReferenceContents | xmlsecurity/source/helper/xsecctl.cxx:1115-1178 | Only a relationships part gets Transforms. Those are the relationship transform of that part. Every stream gets its digest. |
| SignatureExport.RelationshipTransformsContents | xmlsecurity/source/helper/xsecctl.cxx:1127-1167 | The relationship transform comes first. It names every relationship with a non-blacklisted type, in order, and names each one from the input. The C14N transform follows. |
| SignatureExport.RelationshipReferenceId | xmlsecurity/source/helper/xsecctl.cxx:1150-1157 | A relationship is named by the value of its last Id. |
| SignatureExport.BlacklistedRelationsSkipped | xmlsecurity/source/helper/xsecctl.cxx:1147-1148 | A relationship is named exactly when its type is not blacklisted. |
| SignatureExport.ManifestNodesInOrder | xmlsecurity/source/helper/xsecctl.cxx:1101-1182 | The Manifest has one Reference per listed stream, in order. |
| SignatureExport.PackageObjectContents | xmlsecurity/source/helper/xsecctl.cxx:1096-1182 | The Manifest lists exactly the stream references that are not blacklisted, in record order. |
| SignatureExport.SignatureTimeContents | xmlsecurity/source/helper/xsecctl.cxx:1185-1221 | SignatureTime carries the fixed format, then the signature time value. |
| SignatureExport.QualifyingObjectContents | xmlsecurity/source/helper/xsecctl.cxx:1290-1347 | The XAdES SignedProperties are present exactly outside a test run. Their signing time repeats the signature time value. |
| SignatureExport.OoxmlSignatureContents | xmlsecurity/source/helper/xsecctl.cxx:1019-1350 | Signature holds SignedInfo and SignatureValue, then the package, Office and XAdES objects in this order. |
| ManifestClassifier.EncryptedIffDigest | xmlsecurity/source/helper/documentsignaturemanager.cxx:70-92 | An entry counts as encrypted exactly when one of its properties is named Digest. |
| ManifestClassifier.PathWithoutFullPath | xmlsecurity/source/helper/documentsignaturemanager.cxx:70-92 | Without a string FullPath property, the path stays empty. |
| ManifestClassifier.PathIsLastFullPath | xmlsecurity/source/helper/documentsignaturemanager.cxx:70-92 | Otherwise the path is the last string FullPath. |
| ManifestClassifier.MediaTypeWithoutProperty | xmlsecurity/source/helper/documentsignaturemanager.cxx:70-92 | With no string MediaType property, the media type stays empty. |
| ManifestClassifier.MediaTypeIsLast | xmlsecurity/source/helper/documentsignaturemanager.cxx:70-92 | Otherwise the media type is the last string MediaType. |
| ManifestClassifier.FirstMatch | xmlsecurity/source/helper/documentsignaturemanager.cxx:66-92 | The first entry whose path matches the URI, or -1 exactly when none matches. |
| ManifestClassifier.IsXml | xmlsecurity/source/helper/documentsignaturemanager.cxx:55-110 | In test mode every stream is XML. When no manifest entry matches, the extension decides. When the first match makes the stream XML, that entry's media type is text/xml. |
| ManifestClassifier.ExtensionIsXml | xmlsecurity/source/helper/documentsignaturemanager.cxx:93-108 | A name without '.' is never XML by extension. |
| ManifestClassifier.IsXmlByManifest | xmlsecurity/source/helper/documentsignaturemanager.cxx:64-92 | When an entry matches, the stream is XML exactly when the first match has media type text/xml and no Digest. |
| ManifestClassifier.IsXmlByExtension | xmlsecurity/source/helper/documentsignaturemanager.cxx:93-108 | When no entry matches, the stream is XML exactly when the name ends in '.' followed by "xml" in any ASCII case. |
| ManifestClassifier.ExtensionIsXmlSuffix | xmlsecurity/source/helper/documentsignaturemanager.cxx:93-108 | The text after the last '.' is "XML", ignoring ASCII case, exactly when the name ends in '.' and three such characters. |
| StreamResolver.Resolve | xmlsecurity/source/helper/documentsignaturemanager.cxx:118-188 | The open throws a null stream exactly for a non-truncating temporary open with no temporary stream. A temporary or dedicated helper carries the probed format. A non-temporary open leaves the temporary objects as they were. Valid temporary objects stay valid. |
| StreamResolver.ProbeFormat | xmlsecurity/source/helper/documentsignaturemanager.cxx:121-126 | The format is OFOPXML exactly when the storage exists and has a [Content_Types].xml entry. |
| StreamResolver.TempTruncateIsFresh | xmlsecurity/source/helper/documentsignaturemanager.cxx:128-151 | A truncating temporary open creates a new temporary file and hands it out. It wraps the file in a new storage exactly for OFOPXML. |
| StreamResolver.TempReadReuses | xmlsecurity/source/helper/documentsignaturemanager.cxx:128-185 | A non-truncating temporary open reuses and rewinds the existing stream. It throws when there is none. |
| StreamResolver.TruncateOnlyNonOfopxml | xmlsecurity/source/helper/documentsignaturemanager.cxx:170-177 | The stream is truncated exactly when TRUNCATE is asked, a stream exists, and the format is not OFOPXML. |
| StreamResolver.SeekOnlyTempOrDedicated | xmlsecurity/source/helper/documentsignaturemanager.cxx:152-185 | Without TRUNCATE, the stream is rewound exactly when it is the temporary or the dedicated one. A package-opened helper is returned as it is. |
| StreamResolver.TempStorageOnlyForOfopxml | xmlsecurity/source/helper/documentsignaturemanager.cxx:134-151 | The temporary storage changes only on a truncating temporary open of OFOPXML. A temporary storage is handed out only for OFOPXML. |
| StreamResolver.ReadKeepsTemp | xmlsecurity/source/helper/documentsignaturemanager.cxx:118-188 | An open with READ creates no temporary object. |
| SignatureManager.SigningSteps | xmlsecurity/source/helper/documentsignaturemanager.cxx:226-233 | Element k is registered for signing under the id, as binary exactly when it is not XML. |
| SignatureManager.OdfExports | xmlsecurity/source/helper/documentsignaturemanager.cxx:252-254 | Every record is exported, in order. |
| SignatureManager.OoxmlExports | xmlsecurity/source/helper/documentsignaturemanager.cxx:273-274 | Record i is exported as signature number i + 1. |
| SignatureManager.Erase | xmlsecurity/source/helper/documentsignaturemanager.cxx:295 | The record at the position leaves. The others keep their order, and the multiset loses exactly that record. |
| SignatureManager.OoxmlAddOrder | xmlsecurity/source/helper/documentsignaturemanager.cxx:261-287 | Adding in OOXML ensures the signatures relation and writes count n + 1. It exports the old records as 1..n in order, the new one as n + 1, then commits and closes. |
| SignatureManager.OoxmlRemoveOrder | xmlsecurity/source/helper/documentsignaturemanager.cxx:312-332 | Removing in OOXML writes the remaining count, the remaining records numbered 1..n, then commits and closes. |
| SignatureManager.OdfAddOrder | xmlsecurity/source/helper/documentsignaturemanager.cxx:245-261 | Adding in ODF writes every old record, in order, then the new signature, in one writer session. |
| SignatureManager.AddRegistersElements | xmlsecurity/source/helper/documentsignaturemanager.cxx:206-291 | A successful add is one mission. The certificate is set right after the start, then every element is registered (binary exactly when not XML), then the date and description. |
| SignatureManager.ReadVerifiesByFormat | xmlsecurity/source/helper/documentsignaturemanager.cxx:335-352 | Inside one mission, read verifies the stream exactly for a non-OFOPXML format with a stream, and the storage exactly for OFOPXML with a storage. |
| SignatureManager.OdfExportAll | xmlsecurity/source/helper/documentsignaturemanager.cxx:252-254 | The export loop produces `OdfExports`. |
| SignatureManager.OoxmlExportAll | xmlsecurity/source/helper/documentsignaturemanager.cxx:273-274 | The export loop produces `OoxmlExports`. |
| SignatureManager.DocumentSignatureManager.constructor | xmlsecurity/source/helper/documentsignaturemanager.cxx:38-43 | There are no signatures, no storage, no signature stream, and no temporary stream or storage. |
| SignatureManager.DocumentSignatureManager.IsXML | xmlsecurity/source/helper/documentsignaturemanager.cxx:55-110 | The nested loops, the early exit and the fallback compute `IsXml`. |
| SignatureManager.DocumentSignatureManager.ImplOpenSignatureStream | xmlsecurity/source/helper/documentsignaturemanager.cxx:118-188 | The result is `Resolve`. The temporary objects change only as it says. |
| SignatureManager.DocumentSignatureManager.Add | xmlsecurity/source/helper/documentsignaturemanager.cxx:190-291 | Succeeds exactly with a certificate whose serial number is non-empty. On rejection nothing changes. On success the new id comes from the counter, the temporary target is fresh, and the log grows by `AddSteps`. |
| SignatureManager.WriteSteps | xmlsecurity/source/helper/documentsignaturemanager.cxx:245-287 | For ODF, one writer session exports every record at its position, followed by the new signature when adding. For OOXML, the relations part comes first (after the signatures relation when adding), with the records numbered from 1 and the new signature numbered last. It ends with commit and close. |
| SignatureManager.RewriteSteps | xmlsecurity/source/helper/documentsignaturemanager.cxx:243-287 | A non-OFOPXML target is truncated and then opened for writing. OFOPXML is never truncated, and its rewrite ends with closing the output. |
| SignatureManager.ReadSteps | xmlsecurity/source/helper/documentsignaturemanager.cxx:335-352 | A read is one mission. The stream is truncated or rewound exactly as the resolved action says. |
| SignatureManager.DocumentSignatureManager.RegisterElements | xmlsecurity/source/helper/documentsignaturemanager.cxx:226-233 | The element loop produces `SigningSteps`. |
| SignatureManager.DocumentSignatureManager.Rewrite | xmlsecurity/source/helper/documentsignaturemanager.cxx:243-287 | Opens a fresh temporary target with WRITE and TRUNCATE, truncates it for non-OFOPXML, and writes the signatures. |
| SignatureManager.DocumentSignatureManager.WriteSignatures | xmlsecurity/source/helper/documentsignaturemanager.cxx:245-287 | Produces `WriteSteps` for the format. |
| SignatureManager.DocumentSignatureManager.Remove | xmlsecurity/source/helper/documentsignaturemanager.cxx:293-333 | The list becomes `Erase` of the old list, and the remaining records are rewritten to a fresh temporary target. |
| SignatureManager.DocumentSignatureManager.Read | xmlsecurity/source/helper/documentsignaturemanager.cxx:335-352 | Throws exactly when the chosen stream is missing. It then leaves an empty list and a started mission. Otherwise it runs `ReadSteps` and takes the collected records. The temporary objects are unchanged. |

## Left out

- UNO component creation, reference counting and listener registration are not modelled. Component creation is an oracle input (`SaxChain.Creation`):
  - the model keeps only whether each reference is set, and where events flow;
  - the error-message listener and the security-context plumbing are booleans.
- The ElementStackKeeper's `retrieve` (including `bRetrievingLastEvent`) moves events. The model keeps only whether the ElementStackKeeper is running.
- Stream and storage I/O are not modelled: writing, committing, closing and the XML parsing done by the signature helper. The model records each request as a step in the manager's log.
- Cryptography is not modelled. Digests, signature values, certificates and the serial-number adapter's output are opaque strings, and Base64 encoding is not modelled.
- `utl::toISO8601` and the system clock are parameters. The date formatter is `toISO8601`, and the time of signing is `now`.
- `XMLSignatureHelper` internals are not modelled. The records a read collects are the input `collected`. The element list of the signing mode and `AppendContentTypes` are the input `elements`. `DocumentSignatureHelper::OpenSignatureStream` is the input `fromPackage`. `DocumentSignatureHelper::equalsReferenceUriManifestPath` is an uninterpreted function given to the constructor.
- The environment variable LO_TESTNAME is a boolean, `testMode`.
- The relationships of a package part, which `OFOPXMLHelper::ReadRelationsInfoSequence` reads, come from the function `relationsOf`.
- XSecControl.XSecController.GetNewSecurityId: the 32-bit wrap-around of `m_nNextSecurityId` is not modelled. The counter is an unbounded integer.
- SignatureManager.DocumentSignatureManager.Remove: the source does not check the position. The model requires that it is in range, and below 0x10000 because `sal_uInt16` has no larger values.
- XSecControl.XSecController.SignatureCreated and XSecControl.XSecController.SignatureVerified: the source asserts that the id is present. The model makes that assertion a precondition.
- The tag, attribute, namespace and algorithm names come from W3C XML Signature Syntax and Processing, ECMA-376 Part 2 and ETSI TS 101 903. In the source they are defined in xsecctl.hxx, which is not reproduced here. The open modes `READ = 1`, `WRITE = 4` and `TRUNCATE = 8` are the values of the UNO constant group `css::embed::ElementModes`.
- The default format of a `SignatureStreamHelper` is taken as a non-OFOPXML package format. The default of `SignatureStreamHelper::nStorageFormat` is set in documentsignaturehelper.hxx and is not reproduced here.
- The debug-only assertion that the certificate digest is non-empty, in exportOOXMLSignature, is not a precondition. The release behaviour is modelled.
- SignatureManager.DocumentSignatureManager.Read: the default `bCacheLastSignature = true` has no Dafny form. Callers pass the flag explicitly.
- SignatureManager.AddSteps: its own contract is empty because assuming it makes `Add` costly. `SignatureManager.AddRegistersElements` states its layout.
- SignatureManager.DocumentSignatureManager.Add: the counter behind `XMLSignatureHelper::GetNewSecurityId` is modelled as the manager's own field `nextSecurityId`. The log is assembled after the calls are made, but in the order the source makes them.
- The signature mode (`meSignatureMode`) and the component context are not modelled. Both are only passed through to code outside this model.
