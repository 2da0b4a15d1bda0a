/**
 * The two signature serialisers of XSecController: exportSignature (W3C XML
 * Signature Syntax and Processing, section 4, as used by ODF packages) and
 * exportOOXMLSignature (the OOXML variant with the package relationship
 * transform of ECMA-376 Part 2, clause 13, and XAdES qualifying properties),
 * plus the two blacklists the OOXML variant consults.
 *
 * Both are pure: a signature record (and, for OOXML, the relationships of the
 * package parts) determines the sequence of document-handler events.
 */
module SignatureExport {
  import opened XmlEvents
  import opened SigStruct
  import opened Text

  // Identifiers of the XML-DSig, Dublin Core, OPC and XAdES vocabularies.
  const NS_XMLDSIG: string := "http://www.w3.org/2000/09/xmldsig#"
  const NS_DC: string := "http://purl.org/dc/elements/1.1/"
  const NS_MDSSI: string := "http://schemas.openxmlformats.org/package/2006/digital-signature"
  const NS_XD: string := "http://uri.etsi.org/01903/v1.3.2#"
  const ALGO_C14N: string := "http://www.w3.org/TR/2001/REC-xml-c14n-20010315"
  const ALGO_RSASHA1: string := "http://www.w3.org/2000/09/xmldsig#rsa-sha1"
  const ALGO_XMLDSIGSHA1: string := "http://www.w3.org/2000/09/xmldsig#sha1"
  const ALGO_RSASHA256: string := "http://www.w3.org/2001/04/xmldsig-more#rsa-sha256"
  const ALGO_XMLDSIGSHA256: string := "http://www.w3.org/2001/04/xmlenc#sha256"
  const ALGO_RELATIONSHIP: string := "http://schemas.openxmlformats.org/package/2006/RelationshipTransform"

  /** The Algorithm attribute list. */
  function Algorithm(uri: string): Attrs { Attr1(Key.Algorithm, uri) }

  // ---------------------------------------------------------------------
  // exportSignature (ODF)

  /** The URI attribute of an ODF reference: a fragment for same-document references, the raw path otherwise. */
  function ReferenceUri(ref: ReferenceInformation): (r: string)
    ensures ref.kind == SameDocument ==> r == "#" + ref.uri
    ensures ref.kind != SameDocument ==> r == ref.uri
  {
    if ref.kind == SameDocument then "#" + ref.uri else ref.uri
  }

  /** The C14N transform block XML streams are digested with. */
  function C14nTransforms(): Node
  {
    Element(Transforms, NoAttrs, Cons(Empty(Transform, Algorithm(ALGO_C14N)), Nil))
  }

  /** One Reference element of the ODF SignedInfo. */
  function OdfReference(ref: ReferenceInformation): (r: Node)
    ensures r.Element? && r.name == Reference
  {
    var digest := Cons(Empty(DigestMethod, Algorithm(ALGO_XMLDSIGSHA1)), Cons(Leaf(DigestValue, NoAttrs, ref.digestValue), Nil));
    Element(Reference, Attr1(URI, ReferenceUri(ref)),
      if ref.kind == XmlStream then Cons(C14nTransforms(), digest) else digest)
  }

  /** The Reference elements of all references, in record order. */
  function OdfReferences(refs: seq<ReferenceInformation>): (r: Nodes)
    ensures Length(r) == |refs|
  {
    if refs == [] then Nil else Cons(OdfReference(refs[0]), OdfReferences(refs[1..]))
  }

  /** The attributes of the Signature element: the namespace, then Id only when there is one. */
  function SignatureAttrs(info: SignatureInformation): (r: Attrs)
    ensures AttrValue(r, Xmlns) == Some(NS_XMLDSIG)
    ensures AttrValue(r, Id) == if info.signatureId != "" then Some(info.signatureId) else None
  {
    Attr(Xmlns, NS_XMLDSIG, if info.signatureId != "" then Attr1(Id, info.signatureId) else NoAttrs)
  }

  /** The dc:date text: the stored text of an existing signature verbatim, else the formatted time. */
  function DateText(info: SignatureInformation, toISO8601: DateTime -> string): (r: string)
    ensures info.dateTimeText != "" ==> r == info.dateTimeText
    ensures info.dateTimeText == "" ==> r == toISO8601(info.dateTime)
  {
    if info.dateTimeText != "" then info.dateTimeText else toISO8601(info.dateTime)
  }

  function OdfSignedInfo(info: SignatureInformation): (r: Node)
    ensures r.Element? && r.name == SignedInfo
  {
    Element(SignedInfo, NoAttrs, Cons(Empty(CanonicalizationMethod, Algorithm(ALGO_C14N)),
      Cons(Empty(SignatureMethod, Algorithm(ALGO_RSASHA1)), OdfReferences(info.references))))
  }

  /** The issuer and serial number of the signing certificate, under the given element. */
  function IssuerSerial(tag: Tag, info: SignatureInformation): (r: Node)
    ensures r.Element? && r.name == tag
  {
    Element(tag, NoAttrs, Cons(Leaf(X509IssuerName, NoAttrs, info.issuerName),
      Cons(Leaf(X509SerialNumber, NoAttrs, info.serialNumber), Nil)))
  }

  function OdfKeyInfo(info: SignatureInformation): (r: Node)
    ensures r.Element? && r.name == KeyInfo
  {
    var cert := if info.certificate != "" then Cons(Leaf(X509Certificate, NoAttrs, info.certificate), Nil) else Nil;
    Element(KeyInfo, NoAttrs, Cons(Element(X509Data, NoAttrs, Cons(IssuerSerial(X509IssuerSerial, info), cert)), Nil))
  }

  /** The SignatureProperty carrying the signing time. */
  function DateProperty(info: SignatureInformation, toISO8601: DateTime -> string): (r: Node)
    ensures r.Element? && r.name == SignatureProperty
  {
    Element(SignatureProperty, Attr2(Id, info.propertyId, Target, "#" + info.signatureId),
      Cons(Leaf(DcDate, Attr1(XmlnsDc, NS_DC), DateText(info, toISO8601)), Nil))
  }

  /** The SignatureProperty carrying the description. */
  function DescriptionProperty(info: SignatureInformation): (r: Node)
    ensures r.Element? && r.name == SignatureProperty
  {
    Element(SignatureProperty, Attr2(Id, info.descriptionPropertyId, Target, "#" + info.signatureId),
      Cons(Leaf(DcDescription, Attr1(XmlnsDc, NS_DC), info.description), Nil))
  }

  function OdfObject(info: SignatureInformation, toISO8601: DateTime -> string): (r: Node)
    ensures r.Element? && r.name == Object
  {
    var desc := if info.description != "" then Cons(DescriptionProperty(info), Nil) else Nil;
    Element(Object, NoAttrs, Cons(Element(SignatureProperties, NoAttrs, Cons(DateProperty(info, toISO8601), desc)), Nil))
  }

  /** The tree exportSignature walks. */
  function OdfSignatureTree(info: SignatureInformation, toISO8601: DateTime -> string): (r: Node)
    ensures r.Element? && r.name == Signature && r.attrs == SignatureAttrs(info)
  {
    Element(Signature, SignatureAttrs(info), Cons(OdfSignedInfo(info), Cons(Leaf(SignatureValue, NoAttrs, info.signatureValue),
      Cons(OdfKeyInfo(info), Cons(OdfObject(info, toISO8601), Nil)))))
  }

  /** The events exportSignature sends to the document handler. */
  function ExportSignature(info: SignatureInformation, toISO8601: DateTime -> string): (r: seq<Event>)
    ensures WellNested(r)
    ensures r != [] && r[0] == Start(Signature, SignatureAttrs(info)) && r[|r| - 1] == End(Signature)
  {
    var t := OdfSignatureTree(info, toISO8601);
    EventsWellNested(t);
    EventsFrame(t);
    Events(t)
  }

  // ---------------------------------------------------------------------
  // What exportSignature writes

  /** A Reference carries the URI rule, a C14N Transforms block exactly for XML streams, and one SHA-1 digest. */
  lemma OdfReferenceContents(ref: ReferenceInformation)
    ensures AttrValue(OdfReference(ref).attrs, URI) == Some(ReferenceUri(ref))
    ensures Named(OdfReference(ref).children, Transforms) ==
      if ref.kind == XmlStream then Cons(C14nTransforms(), Nil) else Nil
    ensures Named(OdfReference(ref).children, DigestMethod) == Cons(Empty(DigestMethod, Algorithm(ALGO_XMLDSIGSHA1)), Nil)
    ensures Named(OdfReference(ref).children, DigestValue) == Cons(Leaf(DigestValue, NoAttrs, ref.digestValue), Nil)
  {
    ReferenceChildren(C14nTransforms(), Empty(DigestMethod, Algorithm(ALGO_XMLDSIGSHA1)), Leaf(DigestValue, NoAttrs, ref.digestValue));
  }

  /** One Reference per record reference, in record order, and nothing else. */
  lemma {:induction false} OdfReferencesInOrder(refs: seq<ReferenceInformation>)
    ensures forall i :: 0 <= i < |refs| ==> At(OdfReferences(refs), i) == OdfReference(refs[i])
    ensures Named(OdfReferences(refs), Reference) == OdfReferences(refs)
    ensures forall q :: q != Reference ==> Named(OdfReferences(refs), q) == Nil
  {
    if refs != [] {
      OdfReferencesInOrder(refs[1..]);
      NamedCons();
      forall i | 0 < i < |refs| ensures At(OdfReferences(refs), i) == OdfReference(refs[i]) {
        assert refs[1..][i - 1] == refs[i];
      }
    }
  }

  lemma OdfSignedInfoContents(info: SignatureInformation)
    ensures Named(OdfSignedInfo(info).children, CanonicalizationMethod) ==
      Cons(Empty(CanonicalizationMethod, Algorithm(ALGO_C14N)), Nil)
    ensures Named(OdfSignedInfo(info).children, SignatureMethod) == Cons(Empty(SignatureMethod, Algorithm(ALGO_RSASHA1)), Nil)
    ensures Named(OdfSignedInfo(info).children, Reference) == OdfReferences(info.references)
  {
    var cm := Empty(CanonicalizationMethod, Algorithm(ALGO_C14N));
    var sm := Empty(SignatureMethod, Algorithm(ALGO_RSASHA1));
    var refs := OdfReferences(info.references);
    assert OdfSignedInfo(info).children == Cons(cm, Cons(sm, refs));
    OdfReferencesInOrder(info.references);
    SignedInfoChildren(cm, sm, refs);
    assert Named(Cons(sm, refs), CanonicalizationMethod) == Named(refs, CanonicalizationMethod) == Nil;
    assert Named(refs, SignatureMethod) == Nil;
  }

  /** X509Data holds the issuer and serial, and the certificate only when there is one. */
  lemma OdfKeyInfoContents(info: SignatureInformation)
    ensures var k := OdfKeyInfo(info).children;
      k.Cons? && k.tail == Nil && k.head.Element? && k.head.name == X509Data
      && Named(k.head.children, X509IssuerSerial) == Cons(IssuerSerial(X509IssuerSerial, info), Nil)
      && Named(k.head.children, X509Certificate) ==
        if info.certificate != "" then Cons(Leaf(X509Certificate, NoAttrs, info.certificate), Nil) else Nil
  {
    NamedCons();
  }

  /** The date property always, the description property only when there is a description. */
  lemma OdfObjectContents(info: SignatureInformation, toISO8601: DateTime -> string)
    ensures var o := OdfObject(info, toISO8601).children;
      o.Cons? && o.tail == Nil && o.head.Element? && o.head.name == SignatureProperties
      && Named(o.head.children, SignatureProperty) ==
        Cons(DateProperty(info, toISO8601), if info.description != "" then Cons(DescriptionProperty(info), Nil) else Nil)
  {
    NamedCons();
  }

  /** Signature holds exactly one SignedInfo, SignatureValue, KeyInfo and Object. */
  lemma OdfSignatureContents(info: SignatureInformation, toISO8601: DateTime -> string)
    ensures var c := OdfSignatureTree(info, toISO8601).children;
      Named(c, SignedInfo) == Cons(OdfSignedInfo(info), Nil)
      && Named(c, SignatureValue) == Cons(Leaf(SignatureValue, NoAttrs, info.signatureValue), Nil)
      && Named(c, KeyInfo) == Cons(OdfKeyInfo(info), Nil)
      && Named(c, Object) == Cons(OdfObject(info, toISO8601), Nil)
  {
    NamedDistinct4(OdfSignedInfo(info), Leaf(SignatureValue, NoAttrs, info.signatureValue),
      OdfKeyInfo(info), OdfObject(info, toISO8601));
  }

  /** A stored date of an existing signature is written back as it was, whatever the formatter does. */
  lemma StoredDateKept(info: SignatureInformation, f: DateTime -> string, g: DateTime -> string)
    requires info.dateTimeText != ""
    ensures ExportSignature(info, f) == ExportSignature(info, g)
  {
    assert DateProperty(info, f) == DateProperty(info, g);
  }

  // ---------------------------------------------------------------------
  // The OOXML blacklists

  /** Package parts that are never signed: content types, document properties and other signatures. */
  const STREAM_BLACKLIST: seq<string> :=
    ["/%5BContent_Types%5D.xml", "/docProps/app.xml", "/docProps/core.xml", "/_xmlsignatures"]

  /** Relationship types that are never signed. */
  const RELATION_BLACKLIST: seq<string> := [
    "http://schemas.openxmlformats.org/officeDocument/2006/relationships/extended-properties",
    "http://schemas.openxmlformats.org/package/2006/relationships/metadata/core-properties",
    "http://schemas.openxmlformats.org/package/2006/relationships/digital-signature/origin"]

  /** lcl_isOOXMLBlacklist: the stream name starts with one of the blacklisted prefixes. */
  function IsOOXMLBlacklist(name: string): (r: bool)
    ensures r <==> exists i :: 0 <= i < |STREAM_BLACKLIST| && StartsWith(name, STREAM_BLACKLIST[i])
  {
    AnyPrefix(name, STREAM_BLACKLIST)
  }

  function AnyPrefix(name: string, prefixes: seq<string>): (r: bool)
    ensures r <==> exists i :: 0 <= i < |prefixes| && StartsWith(name, prefixes[i])
  {
    if prefixes == [] then false
    else
      assert forall i :: 0 < i < |prefixes| ==> prefixes[1..][i - 1] == prefixes[i];
      StartsWith(name, prefixes[0]) || AnyPrefix(name, prefixes[1..])
  }

  /** lcl_isOOXMLRelationBlacklist: the type is exactly one of the blacklisted types. */
  function IsOOXMLRelationBlacklist(relationType: string): (r: bool)
    ensures r <==> relationType in RELATION_BLACKLIST
  {
    relationType == RELATION_BLACKLIST[0] || relationType == RELATION_BLACKLIST[1] || relationType == RELATION_BLACKLIST[2]
  }

  /** Every blacklisted prefix is an absolute part name, so a relative name is never blacklisted. */
  lemma RelativeNamesNotBlacklisted(name: string)
    requires !StartsWith(name, "/")
    ensures !IsOOXMLBlacklist(name)
  {
    forall i | 0 <= i < |STREAM_BLACKLIST| ensures !StartsWith(name, STREAM_BLACKLIST[i]) {
      assert StartsWith(STREAM_BLACKLIST[i], "/") by { assert STREAM_BLACKLIST[i][..1] == "/"; }
      PrefixOfPrefix(name, STREAM_BLACKLIST[i], "/");
    }
  }

  /** Everything below the signature folder is left out, whatever follows the folder name. */
  lemma SignaturePartsBlacklisted(rest: string)
    ensures IsOOXMLBlacklist("/_xmlsignatures" + rest)
  {
    var name := "/_xmlsignatures" + rest;
    assert name[..|STREAM_BLACKLIST[3]|] == STREAM_BLACKLIST[3];
  }

  // ---------------------------------------------------------------------
  // exportOOXMLSignature

  /** Filters keeping order. */
  function Filter<T(!new)>(xs: seq<T>, p: T -> bool): (r: seq<T>)
    ensures |r| <= |xs|
    ensures forall x :: x in r <==> x in xs && p(x)
  {
    if xs == [] then []
    else
      assert xs == [xs[0]] + xs[1..];
      (if p(xs[0]) then [xs[0]] else []) + Filter(xs[1..], p)
  }

  /** Filtering a concatenation filters each part in turn: the kept elements stay in their order. */
  lemma {:induction false} FilterAppend<T(!new)>(a: seq<T>, b: seq<T>, p: T -> bool)
    ensures Filter(a + b, p) == Filter(a, p) + Filter(b, p)
    decreases |a|
  {
    if a != [] {
      assert (a + b)[0] == a[0] && (a + b)[1..] == a[1..] + b;
      FilterAppend(a[1..], b, p);
    } else {
      assert a + b == b;
    }
  }

  /** Every kept element occurs as often as in the input; the others not at all. */
  lemma {:induction false} FilterCount<T(!new)>(xs: seq<T>, p: T -> bool, x: T)
    ensures multiset(Filter(xs, p))[x] == if p(x) then multiset(xs)[x] else 0
    decreases |xs|
  {
    if xs != [] {
      FilterCount(xs[1..], p, x);
      assert xs == [xs[0]] + xs[1..];
    }
  }

  /** The value of the last pair whose first member is key, or "" when there is none. */
  function LastValue(pairs: seq<(string, string)>, key: string): (r: string)
    ensures r != "" ==> exists i :: 0 <= i < |pairs| && pairs[i] == (key, r)
    ensures (forall i :: 0 <= i < |pairs| ==> pairs[i].0 != key) ==> r == ""
    ensures forall i {:trigger pairs[i]} ::
      0 <= i < |pairs| && pairs[i].0 == key && (forall j :: i < j < |pairs| ==> pairs[j].0 != key) ==> r == pairs[i].1
  {
    if pairs == [] then ""
    else if pairs[|pairs| - 1].0 == key then pairs[|pairs| - 1].1
    else
      var init := pairs[..|pairs| - 1];
      assert forall i :: 0 <= i < |init| ==> init[i] == pairs[i];
      LastValue(init, key)
  }

  /** The Id and Type of one relationship, as the scanning loop in exportOOXMLSignature keeps them. */
  method ScanRelation(pairs: seq<(string, string)>) returns (id: string, relationType: string)
    ensures id == LastValue(pairs, "Id") && relationType == LastValue(pairs, "Type")
  {
    id, relationType := "", "";
    var i := 0;
    while i < |pairs|
      invariant 0 <= i <= |pairs|
      invariant id == LastValue(pairs[..i], "Id") && relationType == LastValue(pairs[..i], "Type")
    {
      assert pairs[..i + 1][..i] == pairs[..i];
      if pairs[i].0 == "Id" {
        id := pairs[i].1;
      } else if pairs[i].0 == "Type" {
        relationType := pairs[i].1;
      }
      i := i + 1;
    }
    assert pairs[..i] == pairs;
  }

  /** The Type of a relationship. */
  function RelationType(pairs: seq<(string, string)>): string { LastValue(pairs, "Type") }

  /** The relationships that are signed: those whose type is not blacklisted. */
  function SignedRelations(relations: seq<seq<(string, string)>>): seq<seq<(string, string)>>
  {
    Filter(relations, (p: seq<(string, string)>) => !IsOOXMLRelationBlacklist(RelationType(p)))
  }

  /** One mdssi:RelationshipReference, naming the relationship by its Id. */
  function RelationshipReference(pairs: seq<(string, string)>): (r: Node)
    ensures r.Element? && r.name == MdssiRelationshipReference
  {
    Empty(MdssiRelationshipReference, Attr2(XmlnsMdssi, NS_MDSSI, SourceId, LastValue(pairs, "Id")))
  }

  /** The suffix of a relationships part in a stream reference. */
  const RELATIONSHIPS_SUFFIX: string := "?ContentType=application/vnd.openxmlformats-package.relationships+xml"

  /** The storage path of a referenced stream: without the leading slash and without the query. */
  function RelationsPath(uri: string): (r: string)
    ensures var p := if StartsWith(uri, "/") then uri[1..] else uri;
      StartsWith(p, r) && '?' !in r && (|r| < |p| ==> p[|r|] == '?')
  {
    var p := if StartsWith(uri, "/") then uri[1..] else uri;
    var q := IndexOf(p, '?');
    if q != -1 then p[..q] else p
  }

  /** The relationship transform followed by the C14N transform. */
  function RelationshipTransforms(relations: seq<seq<(string, string)>>): (r: Node)
    ensures r.Element? && r.name == Transforms
  {
    Element(Transforms, NoAttrs, Cons(
      Element(Transform, Algorithm(ALGO_RELATIONSHIP), MapNodes(SignedRelations(relations), RelationshipReference)),
      Cons(Empty(Transform, Algorithm(ALGO_C14N)), Nil)))
  }

  /** The SHA-256 digest of a reference. */
  function Sha256Digest(digestValue: string): Nodes
  {
    Cons(Empty(DigestMethod, Algorithm(ALGO_XMLDSIGSHA256)), Cons(Leaf(DigestValue, NoAttrs, digestValue), Nil))
  }

  const TYPE_OBJECT: string := "http://www.w3.org/2000/09/xmldsig#Object"
  const TYPE_SIGNED_PROPERTIES: string := "http://uri.etsi.org/01903#SignedProperties"
  const SIGNED_PROPERTIES_ID: string := "idSignedProperties"
  const PACKAGE_SIGNATURE_ID: string := "idPackageSignature"

  /** A same-document Reference of the OOXML SignedInfo. */
  function OoxmlSignedReference(ref: ReferenceInformation): (r: Node)
    ensures r.Element? && r.name == Reference
  {
    var t := if ref.uri != SIGNED_PROPERTIES_ID then TYPE_OBJECT else TYPE_SIGNED_PROPERTIES;
    Element(Reference, Attr2(Type, t, URI, "#" + ref.uri),
      if ref.uri == SIGNED_PROPERTIES_ID then Cons(C14nTransforms(), Sha256Digest(ref.digestValue))
      else Sha256Digest(ref.digestValue))
  }

  /** A stream Reference of the OOXML Manifest; relationships parts get the relationship transform. */
  function ManifestReference(relationsOf: string -> seq<seq<(string, string)>>, ref: ReferenceInformation): (r: Node)
    ensures r.Element? && r.name == Reference
  {
    Element(Reference, Attr1(URI, ref.uri),
      if EndsWith(ref.uri, RELATIONSHIPS_SUFFIX) then
        Cons(RelationshipTransforms(relationsOf(RelationsPath(ref.uri))), Sha256Digest(ref.digestValue))
      else Sha256Digest(ref.digestValue))
  }

  /** The Manifest's Reference elements, one per listed reference, in order. */
  function ManifestNodes(relationsOf: string -> seq<seq<(string, string)>>, refs: seq<ReferenceInformation>): (r: Nodes)
    ensures Length(r) == |refs|
  {
    if refs == [] then Nil else Cons(ManifestReference(relationsOf, refs[0]), ManifestNodes(relationsOf, refs[1..]))
  }

  /** The references signed in SignedInfo: the same-document ones. */
  function SignedReferences(refs: seq<ReferenceInformation>): seq<ReferenceInformation>
  {
    Filter(refs, (ref: ReferenceInformation) => ref.kind == SameDocument)
  }

  /** The references listed in the Manifest: the streams that are not blacklisted. */
  function ManifestReferences(refs: seq<ReferenceInformation>): seq<ReferenceInformation>
  {
    Filter(refs, (ref: ReferenceInformation) => ref.kind != SameDocument && !IsOOXMLBlacklist(ref.uri))
  }

  function OoxmlSignedInfo(info: SignatureInformation): (r: Node)
    ensures r.Element? && r.name == SignedInfo
  {
    Element(SignedInfo, NoAttrs, Cons(Empty(CanonicalizationMethod, Algorithm(ALGO_C14N)),
      Cons(Empty(SignatureMethod, Algorithm(ALGO_RSASHA256)), MapNodes(SignedReferences(info.references), OoxmlSignedReference))))
  }

  /** The mdssi:Value text: the stored text verbatim, else the formatted time cut at its sub-seconds and marked UTC. */
  function SignatureTimeValue(info: SignatureInformation, toISO8601: DateTime -> string): (r: string)
    ensures info.dateTimeText != "" ==> r == info.dateTimeText
    ensures info.dateTimeText == "" ==> ',' !in r
    ensures info.dateTimeText == "" && ',' !in toISO8601(info.dateTime) ==> r == toISO8601(info.dateTime)
    ensures info.dateTimeText == "" && ',' in toISO8601(info.dateTime) ==>
      exists k :: 0 <= k < |toISO8601(info.dateTime)| && toISO8601(info.dateTime)[k] == ','
        && r == toISO8601(info.dateTime)[..k] + "Z"
  {
    if info.dateTimeText != "" then info.dateTimeText
    else
      var iso := toISO8601(info.dateTime);
      var comma := IndexOf(iso, ',');
      if comma != -1 then
        assert ',' !in "Z";
        iso[..comma] + "Z"
      else iso
  }

  function OoxmlKeyInfo(info: SignatureInformation): Node
  {
    Element(KeyInfo, NoAttrs, Cons(Element(X509Data, NoAttrs, Cons(Leaf(X509Certificate, NoAttrs, info.certificate), Nil)), Nil))
  }

  /** The package object: the Manifest and the signing time. */
  function PackageObject(relationsOf: string -> seq<seq<(string, string)>>, info: SignatureInformation,
                         toISO8601: DateTime -> string): (r: Node)
    ensures r.Element? && r.name == Object
  {
    var manifest := Element(Manifest, NoAttrs, ManifestNodes(relationsOf, ManifestReferences(info.references)));
    var time := Element(MdssiSignatureTime, Attr1(XmlnsMdssi, NS_MDSSI), Cons(
      Leaf(MdssiFormat, NoAttrs, "YYYY-MM-DDThh:mm:ssTZD"),
      Cons(Leaf(MdssiValue, NoAttrs, SignatureTimeValue(info, toISO8601)), Nil)));
    Element(Object, Attr1(Id, "idPackageObject"), Cons(manifest, Cons(
      Element(SignatureProperties, NoAttrs, Cons(
        Element(SignatureProperty, Attr2(Id, "idSignatureTime", Target, "#" + PACKAGE_SIGNATURE_ID), Cons(time, Nil)), Nil)),
      Nil)))
  }

  /** The Office object: SignatureInfoV1 with the description and fixed platform values. */
  function OfficeObject(info: SignatureInformation): (r: Node)
    ensures r.Element? && r.name == Object
  {
    var v1 := Element(SignatureInfoV1, Attr1(Xmlns, "http://schemas.microsoft.com/office/2006/digsig"),
      Cons(Empty(SetupId, NoAttrs),
      Cons(Empty(SignatureText, NoAttrs),
      Cons(Empty(SignatureImage, NoAttrs),
      Cons(Leaf(SignatureComments, NoAttrs, info.description),
      Cons(Leaf(WindowsVersion, NoAttrs, "6.1"),
      Cons(Leaf(OfficeVersion, NoAttrs, "16.0"),
      Cons(Leaf(ApplicationVersion, NoAttrs, "16.0"),
      Cons(Leaf(Monitors, NoAttrs, "1"),
      Cons(Leaf(HorizontalResolution, NoAttrs, "1280"),
      Cons(Leaf(VerticalResolution, NoAttrs, "800"),
      Cons(Leaf(ColorDepth, NoAttrs, "32"),
      Cons(Leaf(SignatureProviderId, NoAttrs, "{00000000-0000-0000-0000-000000000000}"),
      Cons(Empty(SignatureProviderUrl, NoAttrs),
      Cons(Leaf(SignatureProviderDetails, NoAttrs, "9"),
      Cons(Leaf(SignatureType, NoAttrs, "1"), Nil))))))))))))))));
    Element(Object, Attr1(Id, "idOfficeObject"), Cons(
      Element(SignatureProperties, NoAttrs, Cons(
        Element(SignatureProperty, Attr2(Id, "idOfficeV1Details", Target, "#" + PACKAGE_SIGNATURE_ID), Cons(v1, Nil)), Nil)),
      Nil))
  }

  /** The XAdES signed properties: signing time, certificate digest and issuer, implied policy. */
  function SignedProperties(info: SignatureInformation, toISO8601: DateTime -> string): (r: Node)
    ensures r.Element? && r.name == XdSignedProperties
  {
    var cert := Element(XdCert, NoAttrs, Cons(
      Element(XdCertDigest, NoAttrs, Cons(Empty(DigestMethod, Algorithm(ALGO_XMLDSIGSHA256)),
        Cons(Leaf(DigestValue, NoAttrs, info.certDigest), Nil))),
      Cons(IssuerSerial(XdIssuerSerial, info), Nil)));
    Element(XdSignedProperties, Attr1(Id, SIGNED_PROPERTIES_ID), Cons(
      Element(XdSignedSignatureProperties, NoAttrs, Cons(
        Leaf(XdSigningTime, NoAttrs, SignatureTimeValue(info, toISO8601)),
        Cons(Element(XdSigningCertificate, NoAttrs, Cons(cert, Nil)),
        Cons(Element(XdSignaturePolicyIdentifier, NoAttrs, Cons(Empty(XdSignaturePolicyImplied, NoAttrs), Nil)), Nil)))),
      Nil))
  }

  /** The XAdES object; under a test run the signed properties are left out. */
  function QualifyingObject(info: SignatureInformation, toISO8601: DateTime -> string, testMode: bool): (r: Node)
    ensures r.Element? && r.name == Object
  {
    Element(Object, NoAttrs, Cons(
      Element(XdQualifyingProperties, Attr2(XmlnsXd, NS_XD, Target, "#" + PACKAGE_SIGNATURE_ID),
        if testMode then Nil else Cons(SignedProperties(info, toISO8601), Nil)),
      Nil))
  }

  /** The attributes of an OOXML Signature: the XML-DSig namespace and the fixed Id idPackageSignature. */
  function OoxmlSignatureAttrs(): (r: Attrs)
    ensures AttrValue(r, Xmlns) == Some(NS_XMLDSIG) && AttrValue(r, Id) == Some(PACKAGE_SIGNATURE_ID)
  {
    Attr2(Xmlns, NS_XMLDSIG, Id, PACKAGE_SIGNATURE_ID)
  }

  /** The tree exportOOXMLSignature walks. */
  function OoxmlSignatureTree(relationsOf: string -> seq<seq<(string, string)>>, info: SignatureInformation,
                              toISO8601: DateTime -> string, testMode: bool): (r: Node)
    ensures r.Element? && r.name == Signature && r.attrs == OoxmlSignatureAttrs()
  {
    Element(Signature, OoxmlSignatureAttrs(), Cons(OoxmlSignedInfo(info),
      Cons(Leaf(SignatureValue, NoAttrs, info.signatureValue),
      Cons(OoxmlKeyInfo(info),
      Cons(PackageObject(relationsOf, info, toISO8601),
      Cons(OfficeObject(info),
      Cons(QualifyingObject(info, toISO8601, testMode), Nil)))))))
  }

  /**
   * The events exportOOXMLSignature sends to the document handler. The
   * relationships of a part are handed in by relationsOf (the package reader),
   * the ISO-8601 formatter by toISO8601, and testMode says whether the
   * LO_TESTNAME environment variable is set.
   */
  function ExportOOXMLSignature(relationsOf: string -> seq<seq<(string, string)>>, info: SignatureInformation,
                                toISO8601: DateTime -> string, testMode: bool): (r: seq<Event>)
    ensures WellNested(r)
    ensures r != [] && r[0] == Start(Signature, OoxmlSignatureAttrs()) && r[|r| - 1] == End(Signature)
  {
    var t := OoxmlSignatureTree(relationsOf, info, toISO8601, testMode);
    EventsWellNested(t);
    EventsFrame(t);
    Events(t)
  }

  // ---------------------------------------------------------------------
  // What exportOOXMLSignature writes

  /** A same-document Reference is typed SignedProperties exactly for idSignedProperties, which alone gets a C14N transform. */
  lemma OoxmlSignedReferenceAttrs(ref: ReferenceInformation)
    ensures AttrValue(OoxmlSignedReference(ref).attrs, Type) ==
      Some(if ref.uri == SIGNED_PROPERTIES_ID then TYPE_SIGNED_PROPERTIES else TYPE_OBJECT)
    ensures AttrValue(OoxmlSignedReference(ref).attrs, URI) == Some("#" + ref.uri)
  {
  }

  /** Only the signed-properties Reference gets Transforms (C14N); every one carries its SHA-256 digest. */
  lemma OoxmlSignedReferenceContents(ref: ReferenceInformation)
    ensures Named(OoxmlSignedReference(ref).children, Transforms) ==
      if ref.uri == SIGNED_PROPERTIES_ID then Cons(C14nTransforms(), Nil) else Nil
    ensures Named(OoxmlSignedReference(ref).children, DigestMethod) ==
      Cons(Empty(DigestMethod, Algorithm(ALGO_XMLDSIGSHA256)), Nil)
    ensures Named(OoxmlSignedReference(ref).children, DigestValue) == Cons(Leaf(DigestValue, NoAttrs, ref.digestValue), Nil)
  {
    ReferenceChildren(C14nTransforms(), Empty(DigestMethod, Algorithm(ALGO_XMLDSIGSHA256)), Leaf(DigestValue, NoAttrs, ref.digestValue));
  }

  /** SignedInfo signs the same-document references, in record order, and no others. */
  lemma OoxmlSignedInfoContents(info: SignatureInformation)
    ensures Named(OoxmlSignedInfo(info).children, Reference) == MapNodes(SignedReferences(info.references), OoxmlSignedReference)
    ensures forall ref :: ref in SignedReferences(info.references) <==> ref in info.references && ref.kind == SameDocument
    ensures Named(OoxmlSignedInfo(info).children, SignatureMethod) == Cons(Empty(SignatureMethod, Algorithm(ALGO_RSASHA256)), Nil)
  {
    SignedInfoChildren(Empty(CanonicalizationMethod, Algorithm(ALGO_C14N)), Empty(SignatureMethod, Algorithm(ALGO_RSASHA256)),
      MapNodes(SignedReferences(info.references), OoxmlSignedReference));
    MapNodesNamed(SignedReferences(info.references), OoxmlSignedReference, Reference, SignatureMethod);
  }

  /** A stream Reference carries its raw URI. */
  lemma ManifestReferenceUri(relationsOf: string -> seq<seq<(string, string)>>, ref: ReferenceInformation)
    ensures AttrValue(ManifestReference(relationsOf, ref).attrs, URI) == Some(ref.uri)
  {
  }

  /** Only a relationships part gets Transforms, the relationship transform of that part; every stream gets its digest. */
  lemma ManifestReferenceContents(relationsOf: string -> seq<seq<(string, string)>>, ref: ReferenceInformation)
    ensures Named(ManifestReference(relationsOf, ref).children, Transforms) ==
      if EndsWith(ref.uri, RELATIONSHIPS_SUFFIX)
      then Cons(RelationshipTransforms(relationsOf(RelationsPath(ref.uri))), Nil) else Nil
    ensures Named(ManifestReference(relationsOf, ref).children, DigestValue) == Cons(Leaf(DigestValue, NoAttrs, ref.digestValue), Nil)
  {
    var dm := Empty(DigestMethod, Algorithm(ALGO_XMLDSIGSHA256));
    var dv := Leaf(DigestValue, NoAttrs, ref.digestValue);
    ReferenceChildren(RelationshipTransforms(relationsOf(RelationsPath(ref.uri))), dm, dv);
  }

  /**
   * The relationship transform comes first and names, in order, every
   * relationship whose type is not blacklisted, by its Id; the C14N
   * transform follows it.
   */
  lemma RelationshipTransformsContents(relations: seq<seq<(string, string)>>, i: nat)
    requires i < |SignedRelations(relations)|
    ensures var c := RelationshipTransforms(relations).children;
      Length(c) == 2 && c.head.Element? && c.head.name == Transform && c.head.attrs == Algorithm(ALGO_RELATIONSHIP)
      && c.tail.head == Empty(Transform, Algorithm(ALGO_C14N))
      && Length(c.head.children) == |SignedRelations(relations)|
      && At(c.head.children, i) == RelationshipReference(SignedRelations(relations)[i])
    ensures SignedRelations(relations)[i] in relations
    ensures !IsOOXMLRelationBlacklist(RelationType(SignedRelations(relations)[i]))
  {
    MapNodesAt(SignedRelations(relations), RelationshipReference, i);
  }

  /** A relationship is named by the value of its last "Id" attribute. */
  lemma RelationshipReferenceId(pairs: seq<(string, string)>)
    ensures AttrValue(RelationshipReference(pairs).attrs, SourceId) == Some(LastValue(pairs, "Id"))
  {
  }

  /** No relationship of a blacklisted type is named. */
  lemma BlacklistedRelationsSkipped(relations: seq<seq<(string, string)>>, pairs: seq<(string, string)>)
    requires pairs in relations
    ensures pairs in SignedRelations(relations) <==> !IsOOXMLRelationBlacklist(RelationType(pairs))
  {
  }

  lemma {:induction false} ManifestNodesInOrder(relationsOf: string -> seq<seq<(string, string)>>,
                                                 refs: seq<ReferenceInformation>)
    ensures forall i :: 0 <= i < |refs| ==> At(ManifestNodes(relationsOf, refs), i) == ManifestReference(relationsOf, refs[i])
    ensures Named(ManifestNodes(relationsOf, refs), Reference) == ManifestNodes(relationsOf, refs)
  {
    if refs != [] {
      ManifestNodesInOrder(relationsOf, refs[1..]);
      forall i | 0 < i < |refs| ensures At(ManifestNodes(relationsOf, refs), i) == ManifestReference(relationsOf, refs[i]) {
        assert refs[1..][i - 1] == refs[i];
      }
    }
  }

  /** The Manifest lists the stream references that are not blacklisted, in record order, and nothing else. */
  lemma PackageObjectContents(relationsOf: string -> seq<seq<(string, string)>>, info: SignatureInformation,
                              toISO8601: DateTime -> string)
    ensures var c := PackageObject(relationsOf, info, toISO8601).children;
      c.head == Element(Manifest, NoAttrs, ManifestNodes(relationsOf, ManifestReferences(info.references)))
    ensures Named(ManifestNodes(relationsOf, ManifestReferences(info.references)), Reference) ==
      ManifestNodes(relationsOf, ManifestReferences(info.references))
    ensures forall ref :: ref in ManifestReferences(info.references) <==>
      ref in info.references && ref.kind != SameDocument && !IsOOXMLBlacklist(ref.uri)
  {
    ManifestNodesInOrder(relationsOf, ManifestReferences(info.references));
  }

  /** mdssi:SignatureTime carries the fixed format and the signature time value. */
  lemma SignatureTimeContents(relationsOf: string -> seq<seq<(string, string)>>, info: SignatureInformation,
                              toISO8601: DateTime -> string)
    ensures var sp := PackageObject(relationsOf, info, toISO8601).children.tail.head;
      sp.Element? && sp.name == SignatureProperties
      && sp.children.head.attrs == Attr2(Id, "idSignatureTime", Target, "#" + PACKAGE_SIGNATURE_ID)
      && sp.children.head.children.head.children ==
         Cons(Leaf(MdssiFormat, NoAttrs, "YYYY-MM-DDThh:mm:ssTZD"),
              Cons(Leaf(MdssiValue, NoAttrs, SignatureTimeValue(info, toISO8601)), Nil))
  {
  }

  /** Outside a test run the XAdES signed properties are present and repeat the signature time; under a test run they are absent. */
  lemma QualifyingObjectContents(info: SignatureInformation, toISO8601: DateTime -> string, testMode: bool)
    ensures var qp := QualifyingObject(info, toISO8601, testMode).children.head;
      qp.Element? && qp.name == XdQualifyingProperties
      && Named(qp.children, XdSignedProperties) == if testMode then Nil else Cons(SignedProperties(info, toISO8601), Nil)
    ensures SignedProperties(info, toISO8601).children.head.children.head ==
      Leaf(XdSigningTime, NoAttrs, SignatureTimeValue(info, toISO8601))
  {
    NamedCons();
  }

  /** Signature holds SignedInfo, SignatureValue, KeyInfo and the package, Office and XAdES objects in this order. */
  lemma OoxmlSignatureContents(relationsOf: string -> seq<seq<(string, string)>>, info: SignatureInformation,
                               toISO8601: DateTime -> string, testMode: bool)
    ensures var c := OoxmlSignatureTree(relationsOf, info, toISO8601, testMode).children;
      Named(c, SignedInfo) == Cons(OoxmlSignedInfo(info), Nil)
      && Named(c, SignatureValue) == Cons(Leaf(SignatureValue, NoAttrs, info.signatureValue), Nil)
      && Named(c, Object) == Cons(PackageObject(relationsOf, info, toISO8601),
           Cons(OfficeObject(info), Cons(QualifyingObject(info, toISO8601, testMode), Nil)))
  {
    var a, b, k := OoxmlSignedInfo(info), Leaf(SignatureValue, NoAttrs, info.signatureValue), OoxmlKeyInfo(info);
    var d, e, f := PackageObject(relationsOf, info, toISO8601), OfficeObject(info), QualifyingObject(info, toISO8601, testMode);
    assert OoxmlSignatureTree(relationsOf, info, toISO8601, testMode).children
      == Cons(a, Cons(b, Cons(k, Cons(d, Cons(e, Cons(f, Nil))))));
    OoxmlChildren(a, b, k, d, e, f);
  }

  lemma OoxmlChildren(a: Node, b: Node, c: Node, d: Node, e: Node, f: Node)
    requires a.Element? && a.name == SignedInfo && b.Element? && b.name == SignatureValue
    requires c.Element? && c.name == KeyInfo
    requires d.Element? && d.name == Object && e.Element? && e.name == Object && f.Element? && f.name == Object
    ensures var l := Cons(a, Cons(b, Cons(c, Cons(d, Cons(e, Cons(f, Nil))))));
      Named(l, SignedInfo) == Cons(a, Nil) && Named(l, SignatureValue) == Cons(b, Nil)
      && Named(l, Object) == Cons(d, Cons(e, Cons(f, Nil)))
  {
    NamedCons();
  }

  /** A Reference's children, with or without Transforms in front of the two digest children. */
  lemma ReferenceChildren(t: Node, dm: Node, dv: Node)
    requires t.Element? && t.name == Transforms && dm.Element? && dm.name == DigestMethod
    requires dv.Element? && dv.name == DigestValue
    ensures Named(Cons(t, Cons(dm, Cons(dv, Nil))), Transforms) == Cons(t, Nil)
    ensures Named(Cons(t, Cons(dm, Cons(dv, Nil))), DigestValue) == Cons(dv, Nil)
    ensures Named(Cons(dm, Cons(dv, Nil)), Transforms) == Nil
    ensures Named(Cons(dm, Cons(dv, Nil)), DigestValue) == Cons(dv, Nil)
    ensures Named(Cons(t, Cons(dm, Cons(dv, Nil))), DigestMethod) == Cons(dm, Nil)
    ensures Named(Cons(dm, Cons(dv, Nil)), DigestMethod) == Cons(dm, Nil)
  {
    NamedCons();
  }

  /** SignedInfo's children: the two method elements, then the references. */
  lemma SignedInfoChildren(cm: Node, sm: Node, rest: Nodes)
    requires cm.Element? && cm.name == CanonicalizationMethod && sm.Element? && sm.name == SignatureMethod
    ensures Named(Cons(cm, Cons(sm, rest)), Reference) == Named(rest, Reference)
    ensures Named(Cons(cm, Cons(sm, rest)), SignatureMethod) == Cons(sm, Named(rest, SignatureMethod))
  {
    NamedCons();
  }
}
