/**
 * SAX-style document-handler events (startElement / characters / endElement),
 * the element trees the signature serialisers walk when they emit them, and
 * the nesting discipline every emitted stream obeys.
 */
module XmlEvents {

  /**
   * The element names the two serialisers write: the XML-DSig vocabulary,
   * the Dublin Core (dc:), OPC digital-signature (mdssi:) and XAdES (xd:)
   * elements, and the Office SignatureInfoV1 block.
   */
  datatype Tag =
    | Signature | SignedInfo | CanonicalizationMethod | SignatureMethod | Reference
    | Transforms | Transform | DigestMethod | DigestValue | SignatureValue | KeyInfo
    | X509Data | X509IssuerSerial | X509IssuerName | X509SerialNumber | X509Certificate
    | Object | SignatureProperties | SignatureProperty | DcDate | DcDescription | Manifest
    | MdssiRelationshipReference | MdssiSignatureTime | MdssiFormat | MdssiValue
    | SignatureInfoV1 | SetupId | SignatureText | SignatureImage | SignatureComments
    | WindowsVersion | OfficeVersion | ApplicationVersion | Monitors | HorizontalResolution
    | VerticalResolution | ColorDepth | SignatureProviderId | SignatureProviderUrl
    | SignatureProviderDetails | SignatureType
    | XdQualifyingProperties | XdSignedProperties | XdSignedSignatureProperties | XdSigningTime
    | XdSigningCertificate | XdCert | XdCertDigest | XdIssuerSerial
    | XdSignaturePolicyIdentifier | XdSignaturePolicyImplied

  /** The qualified name written for each tag. */
  function TagName(t: Tag): string
  {
    match t
    case Signature => "Signature"
    case SignedInfo => "SignedInfo"
    case CanonicalizationMethod => "CanonicalizationMethod"
    case SignatureMethod => "SignatureMethod"
    case Reference => "Reference"
    case Transforms => "Transforms"
    case Transform => "Transform"
    case DigestMethod => "DigestMethod"
    case DigestValue => "DigestValue"
    case SignatureValue => "SignatureValue"
    case KeyInfo => "KeyInfo"
    case X509Data => "X509Data"
    case X509IssuerSerial => "X509IssuerSerial"
    case X509IssuerName => "X509IssuerName"
    case X509SerialNumber => "X509SerialNumber"
    case X509Certificate => "X509Certificate"
    case Object => "Object"
    case SignatureProperties => "SignatureProperties"
    case SignatureProperty => "SignatureProperty"
    case DcDate => "dc:date"
    case DcDescription => "dc:description"
    case Manifest => "Manifest"
    case MdssiRelationshipReference => "mdssi:RelationshipReference"
    case MdssiSignatureTime => "mdssi:SignatureTime"
    case MdssiFormat => "mdssi:Format"
    case MdssiValue => "mdssi:Value"
    case SignatureInfoV1 => "SignatureInfoV1"
    case SetupId => "SetupId"
    case SignatureText => "SignatureText"
    case SignatureImage => "SignatureImage"
    case SignatureComments => "SignatureComments"
    case WindowsVersion => "WindowsVersion"
    case OfficeVersion => "OfficeVersion"
    case ApplicationVersion => "ApplicationVersion"
    case Monitors => "Monitors"
    case HorizontalResolution => "HorizontalResolution"
    case VerticalResolution => "VerticalResolution"
    case ColorDepth => "ColorDepth"
    case SignatureProviderId => "SignatureProviderId"
    case SignatureProviderUrl => "SignatureProviderUrl"
    case SignatureProviderDetails => "SignatureProviderDetails"
    case SignatureType => "SignatureType"
    case XdQualifyingProperties => "xd:QualifyingProperties"
    case XdSignedProperties => "xd:SignedProperties"
    case XdSignedSignatureProperties => "xd:SignedSignatureProperties"
    case XdSigningTime => "xd:SigningTime"
    case XdSigningCertificate => "xd:SigningCertificate"
    case XdCert => "xd:Cert"
    case XdCertDigest => "xd:CertDigest"
    case XdIssuerSerial => "xd:IssuerSerial"
    case XdSignaturePolicyIdentifier => "xd:SignaturePolicyIdentifier"
    case XdSignaturePolicyImplied => "xd:SignaturePolicyImplied"
  }

  /** The attribute names the serialisers write. */
  datatype Key = Xmlns | XmlnsDc | XmlnsMdssi | XmlnsXd | Id | URI | Algorithm | Target | Type | SourceId

  function KeyName(k: Key): string
  {
    match k
    case Xmlns => "xmlns"
    case XmlnsDc => "xmlns:dc"
    case XmlnsMdssi => "xmlns:mdssi"
    case XmlnsXd => "xmlns:xd"
    case Id => "Id"
    case URI => "URI"
    case Algorithm => "Algorithm"
    case Target => "Target"
    case Type => "Type"
    case SourceId => "SourceId"
  }

  /** An attribute list, in the order the attributes were added. */
  datatype Attrs = NoAttrs | Attr(key: Key, value: string, more: Attrs)

  /** The list with one attribute. */
  function Attr1(k: Key, v: string): Attrs { Attr(k, v, NoAttrs) }

  /** The list with two attributes, in this order. */
  function Attr2(k1: Key, v1: string, k2: Key, v2: string): Attrs { Attr(k1, v1, Attr(k2, v2, NoAttrs)) }

  datatype Event =
    | Start(name: Tag, attrs: Attrs)
    | Chars(text: string)
    | End(name: Tag)

  datatype Option<T> = None | Some(value: T)

  /**
   * Replays events against a stack of open element names: a start pushes,
   * an end pops its own name, anything else is a nesting error (None).
   */
  function Run(evs: seq<Event>, open: seq<Tag>): Option<seq<Tag>>
    decreases |evs|
  {
    if evs == [] then Some(open)
    else match evs[0]
      case Start(n, _) => Run(evs[1..], open + [n])
      case Chars(_) => Run(evs[1..], open)
      case End(n) =>
        if open != [] && open[|open| - 1] == n then Run(evs[1..], open[..|open| - 1])
        else None
  }

  /** Every start has a matching end, in the right order, and nothing is left open. */
  predicate WellNested(evs: seq<Event>)
  {
    Run(evs, []) == Some([])
  }

  /** An element with its attributes and content, or a run of character data. */
  datatype Node =
    | Element(name: Tag, attrs: Attrs, children: Nodes)
    | Text(text: string)

  /** A list of sibling nodes, in document order. */
  datatype Nodes = Nil | Cons(head: Node, tail: Nodes)

  /** The events a document handler receives when the tree is written out depth first. */
  function Events(n: Node): seq<Event>
    decreases n, 1
  {
    match n
    case Text(t) => [Chars(t)]
    case Element(name, attrs, children) => [Start(name, attrs)] + EventsOf(children) + [End(name)]
  }

  function EventsOf(ns: Nodes): seq<Event>
    decreases ns, 0
  {
    match ns
    case Nil => []
    case Cons(n, rest) => Events(n) + EventsOf(rest)
  }

  /** Siblings one after the other. */
  function Append(a: Nodes, b: Nodes): Nodes
  {
    match a
    case Nil => b
    case Cons(n, rest) => Cons(n, Append(rest, b))
  }

  function Length(ns: Nodes): nat
  {
    match ns
    case Nil => 0
    case Cons(_, rest) => 1 + Length(rest)
  }

  function At(ns: Nodes, i: nat): Node
    requires i < Length(ns)
  {
    if i == 0 then ns.head else At(ns.tail, i - 1)
  }

  /** An element with text content only. */
  function Leaf(name: Tag, attrs: Attrs, t: string): (r: Node)
    ensures r.Element? && r.name == name && r.attrs == attrs && r.children == Cons(Text(t), Nil)
  {
    Element(name, attrs, Cons(Text(t), Nil))
  }

  /** An element without content. */
  function Empty(name: Tag, attrs: Attrs): (r: Node)
    ensures r.Element? && r.name == name && r.attrs == attrs && r.children == Nil
  {
    Element(name, attrs, Nil)
  }

  // ---------------------------------------------------------------------
  // Lemmas about Run

  lemma {:induction false} RunAppend(a: seq<Event>, b: seq<Event>, open: seq<Tag>)
    ensures Run(a + b, open) == match Run(a, open) case None => None case Some(t) => Run(b, t)
    decreases |a|
  {
    if a == [] {
      assert a + b == b;
    } else {
      assert (a + b)[0] == a[0];
      assert (a + b)[1..] == a[1..] + b;
      match a[0]
      case Start(n, _) => RunAppend(a[1..], b, open + [n]);
      case Chars(_) => RunAppend(a[1..], b, open);
      case End(n) =>
        if open != [] && open[|open| - 1] == n {
          RunAppend(a[1..], b, open[..|open| - 1]);
        }
    }
  }

  /** Writing out a tree leaves the stack of open elements exactly as it found it. */
  lemma {:induction false} NodeBalanced(n: Node, open: seq<Tag>)
    ensures Run(Events(n), open) == Some(open)
    decreases n, 1
  {
    match n
    case Text(t) =>
      assert [Chars(t)][1..] == [];
    case Element(name, attrs, children) =>
      var body := EventsOf(children);
      var r := [Start(name, attrs)] + body + [End(name)];
      assert r[0] == Start(name, attrs);
      assert r[1..] == body + [End(name)];
      NodesBalanced(children, open + [name]);
      RunAppend(body, [End(name)], open + [name]);
      assert (open + [name])[..|open + [name]| - 1] == open;
      assert [End(name)][1..] == [];
  }

  lemma {:induction false} NodesBalanced(ns: Nodes, open: seq<Tag>)
    ensures Run(EventsOf(ns), open) == Some(open)
    decreases ns, 0
  {
    match ns
    case Nil =>
    case Cons(n, rest) =>
      NodeBalanced(n, open);
      NodesBalanced(rest, open);
      RunAppend(Events(n), EventsOf(rest), open);
  }

  /** The stream of an element starts with its start tag and ends with its end tag. */
  lemma EventsFrame(n: Node)
    requires n.Element?
    ensures Events(n) != [] && Events(n)[0] == Start(n.name, n.attrs) && Events(n)[|Events(n)| - 1] == End(n.name)
  {
  }

  /** Every tree is written out as a well-nested event stream. */
  lemma EventsWellNested(n: Node)
    ensures WellNested(Events(n))
  {
    NodeBalanced(n, []);
  }

  // ---------------------------------------------------------------------
  // Looking into a tree

  /** The elements named q among the siblings ns, in order. */
  function Named(ns: Nodes, q: Tag): Nodes
  {
    match ns
    case Nil => Nil
    case Cons(n, rest) => if n.Element? && n.name == q then Cons(n, Named(rest, q)) else Named(rest, q)
  }

  /** Named on a list written out element by element, one element at a time. */
  lemma NamedCons()
    ensures forall n, rest, q {:trigger Named(Cons(n, rest), q)} ::
      Named(Cons(n, rest), q) == if n.Element? && n.name == q then Cons(n, Named(rest, q)) else Named(rest, q)
  {
  }

  /** Among four siblings with different element names, each name picks out its own sibling. */
  lemma NamedDistinct4(a: Node, b: Node, c: Node, d: Node)
    requires a.Element? && b.Element? && c.Element? && d.Element?
    requires a.name != b.name && a.name != c.name && a.name != d.name
    requires b.name != c.name && b.name != d.name && c.name != d.name
    ensures Named(Cons(a, Cons(b, Cons(c, Cons(d, Nil)))), a.name) == Cons(a, Nil)
    ensures Named(Cons(a, Cons(b, Cons(c, Cons(d, Nil)))), b.name) == Cons(b, Nil)
    ensures Named(Cons(a, Cons(b, Cons(c, Cons(d, Nil)))), c.name) == Cons(c, Nil)
    ensures Named(Cons(a, Cons(b, Cons(c, Cons(d, Nil)))), d.name) == Cons(d, Nil)
  {
    NamedCons();
  }

  lemma {:induction false} NamedAppend(a: Nodes, b: Nodes, q: Tag)
    ensures Named(Append(a, b), q) == Append(Named(a, q), Named(b, q))
  {
    match a
    case Nil =>
    case Cons(n, rest) => NamedAppend(rest, b, q);
  }

  /** The siblings f(xs[0]), f(xs[1]), ..., in order. */
  function MapNodes<T>(xs: seq<T>, f: T -> Node): (r: Nodes)
    ensures Length(r) == |xs|
  {
    if xs == [] then Nil else Cons(f(xs[0]), MapNodes(xs[1..], f))
  }

  lemma {:induction false} MapNodesAt<T>(xs: seq<T>, f: T -> Node, i: nat)
    requires i < |xs|
    ensures At(MapNodes(xs, f), i) == f(xs[i])
  {
    if i > 0 {
      MapNodesAt(xs[1..], f, i - 1);
      assert xs[1..][i - 1] == xs[i];
    }
  }

  /** When f always builds an element named q, the mapped siblings are all q and nothing else. */
  lemma {:induction false} MapNodesNamed<T>(xs: seq<T>, f: T -> Node, q: Tag, q': Tag)
    requires forall x :: f(x).Element? && f(x).name == q
    ensures Named(MapNodes(xs, f), q) == MapNodes(xs, f)
    ensures q' != q ==> Named(MapNodes(xs, f), q') == Nil
  {
    if xs != [] {
      MapNodesNamed(xs[1..], f, q, q');
    }
  }

  /** Named picks exactly the elements named q, and keeps their order. */
  lemma {:induction false} NamedMembers(ns: Nodes, q: Tag, n: Node)
    ensures Contains(Named(ns, q), n) <==> Contains(ns, n) && n.Element? && n.name == q
  {
    match ns
    case Nil =>
    case Cons(m, rest) => NamedMembers(rest, q, n);
  }

  predicate Contains(ns: Nodes, n: Node)
  {
    match ns
    case Nil => false
    case Cons(m, rest) => m == n || Contains(rest, n)
  }

  /** The value of the first attribute called key, if any. */
  function AttrValue(attrs: Attrs, key: Key): Option<string>
  {
    match attrs
    case NoAttrs => None
    case Attr(k, v, more) => if k == key then Some(v) else AttrValue(more, key)
  }

  predicate HasAttr(attrs: Attrs, key: Key, v: string)
  {
    match attrs
    case NoAttrs => false
    case Attr(k, w, more) => (k == key && w == v) || HasAttr(more, key, v)
  }

  /** AttrValue finds a value exactly when the key is present, and what it finds is one of the key's values. */
  lemma {:induction false} AttrValueFound(attrs: Attrs, key: Key, v: string)
    ensures HasAttr(attrs, key, v) ==> AttrValue(attrs, key).Some?
    ensures AttrValue(attrs, key).Some? ==> HasAttr(attrs, key, AttrValue(attrs, key).value)
  {
    match attrs
    case NoAttrs =>
    case Attr(k, w, more) => AttrValueFound(more, key, v);
  }
}
