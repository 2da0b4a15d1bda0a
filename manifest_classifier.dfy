/**
 * The manifest classifier behind DocumentSignatureManager::isXML: which
 * package streams are XML (and so are signed with a C14N transform) and
 * which are binary. A manifest is a sequence of entries, each a sequence of
 * named property values; the first entry whose FullPath matches the stream
 * decides, and when none does, the file extension decides.
 */
module ManifestClassifier {
  import opened Text

  /** The value of a property: a string, or anything else (`>>=` into a string leaves the target alone for those). */
  datatype AnyValue = StringValue(text: string) | OtherValue

  datatype PropertyValue = PropertyValue(name: string, value: AnyValue)

  /** What one manifest entry says about its stream. */
  datatype EntryProps = EntryProps(path: string, mediaType: string, encrypted: bool)

  const FULL_PATH: string := "FullPath"
  const MEDIA_TYPE: string := "MediaType"
  const DIGEST: string := "Digest"
  const XML_MEDIA_TYPE: string := "text/xml"
  const XML_EXTENSION: string := "XML"

  /** `value >>= target`: the target takes a string value and keeps its old value otherwise. */
  function Extract(target: string, v: AnyValue): string
  {
    if v.StringValue? then v.text else target
  }

  /** One step of the property loop: FullPath, MediaType and Digest are tested in that order. */
  function ScanStep(p: EntryProps, prop: PropertyValue): EntryProps
  {
    if prop.name == FULL_PATH then p.(path := Extract(p.path, prop.value))
    else if prop.name == MEDIA_TYPE then p.(mediaType := Extract(p.mediaType, prop.value))
    else if prop.name == DIGEST then p.(encrypted := true)
    else p
  }

  /** The property loop over one entry, from empty path and media type and not encrypted. */
  function ScanEntry(entry: seq<PropertyValue>): EntryProps
    decreases |entry|
  {
    if entry == [] then EntryProps("", "", false)
    else ScanStep(ScanEntry(entry[..|entry| - 1]), entry[|entry| - 1])
  }

  /** A property that sets the path: named FullPath and holding a string. */
  predicate SetsPath(prop: PropertyValue)
  {
    prop.name == FULL_PATH && prop.value.StringValue?
  }

  /** An entry counts as encrypted exactly when one of its properties is named Digest. */
  lemma {:induction false} EncryptedIffDigest(entry: seq<PropertyValue>)
    ensures ScanEntry(entry).encrypted <==> exists j :: 0 <= j < |entry| && entry[j].name == DIGEST
    decreases |entry|
  {
    if entry != [] {
      var init := entry[..|entry| - 1];
      EncryptedIffDigest(init);
      assert forall j :: 0 <= j < |init| ==> init[j] == entry[j];
    }
  }

  /** Without a FullPath property holding a string, the path stays "". */
  lemma {:induction false} PathWithoutFullPath(entry: seq<PropertyValue>)
    requires forall k :: 0 <= k < |entry| ==> !SetsPath(entry[k])
    ensures ScanEntry(entry).path == ""
    decreases |entry|
  {
    if entry != [] {
      PathWithoutFullPath(entry[..|entry| - 1]);
    }
  }

  /** Otherwise the path is the string of the LAST FullPath property holding a string. */
  lemma {:induction false} PathIsLastFullPath(entry: seq<PropertyValue>, j: int)
    requires 0 <= j < |entry| && SetsPath(entry[j])
    requires forall k :: j < k < |entry| ==> !SetsPath(entry[k])
    ensures ScanEntry(entry).path == entry[j].value.text
    decreases |entry|
  {
    if j < |entry| - 1 {
      var init := entry[..|entry| - 1];
      assert init[j] == entry[j];
      PathIsLastFullPath(init, j);
    }
  }

  /** A property that sets the media type: named MediaType and holding a string. */
  predicate SetsMediaType(prop: PropertyValue)
  {
    prop.name == MEDIA_TYPE && prop.value.StringValue?
  }

  /** Without a MediaType property holding a string, the media type stays "". */
  lemma {:induction false} MediaTypeWithoutProperty(entry: seq<PropertyValue>)
    requires forall k :: 0 <= k < |entry| ==> !SetsMediaType(entry[k])
    ensures ScanEntry(entry).mediaType == ""
    decreases |entry|
  {
    if entry != [] {
      MediaTypeWithoutProperty(entry[..|entry| - 1]);
    }
  }

  /** Otherwise the media type is the string of the LAST MediaType property holding a string. */
  lemma {:induction false} MediaTypeIsLast(entry: seq<PropertyValue>, j: int)
    requires 0 <= j < |entry| && SetsMediaType(entry[j])
    requires forall k :: j < k < |entry| ==> !SetsMediaType(entry[k])
    ensures ScanEntry(entry).mediaType == entry[j].value.text
    decreases |entry|
  {
    if j < |entry| - 1 {
      var init := entry[..|entry| - 1];
      assert init[j] == entry[j];
      MediaTypeIsLast(init, j);
    }
  }

  /**
   * The index of the first entry whose path matches the stream URI under
   * the package's URI-versus-manifest-path comparison, or -1.
   */
  function FirstMatch(manifest: seq<seq<PropertyValue>>, uri: string, matches: (string, string) -> bool): (r: int)
    ensures -1 <= r < |manifest|
    ensures r == -1 <==> forall i :: 0 <= i < |manifest| ==> !matches(uri, ScanEntry(manifest[i]).path)
    ensures r != -1 ==> matches(uri, ScanEntry(manifest[r]).path)
    ensures r != -1 ==> forall i :: 0 <= i < r ==> !matches(uri, ScanEntry(manifest[i]).path)
  {
    if manifest == [] then -1
    else if matches(uri, ScanEntry(manifest[0]).path) then 0
    else
      var k := FirstMatch(manifest[1..], uri, matches);
      assert forall i :: 0 < i < |manifest| ==> manifest[1..][i - 1] == manifest[i];
      if k == -1 then -1 else k + 1
  }

  /** The extension fallback: the text after the last '.' is "XML" in any ASCII case; no '.' means not XML. */
  function ExtensionIsXml(uri: string): (r: bool)
    ensures '.' !in uri ==> !r
  {
    var sep := LastIndexOf(uri, '.');
    sep != -1 && EqualsIgnoreAsciiCase(uri[sep + 1..], XML_EXTENSION)
  }

  /** isXML on values; `testMode` stands for the LO_TESTNAME switch, under which every stream is XML. */
  function IsXml(manifest: seq<seq<PropertyValue>>, uri: string, matches: (string, string) -> bool, testMode: bool): (r: bool)
    ensures testMode ==> r
    ensures !testMode && FirstMatch(manifest, uri, matches) == -1 ==> (r <==> ExtensionIsXml(uri))
    ensures !testMode && r && FirstMatch(manifest, uri, matches) != -1 ==>
      ScanEntry(manifest[FirstMatch(manifest, uri, matches)]).mediaType == XML_MEDIA_TYPE
  {
    if testMode then true
    else
      var k := FirstMatch(manifest, uri, matches);
      if k != -1 then
        var p := ScanEntry(manifest[k]);
        p.mediaType == XML_MEDIA_TYPE && !p.encrypted
      else ExtensionIsXml(uri)
  }

  /**
   * When some entry matches, the first one decides: the stream is XML iff its
   * media type is text/xml and it carries no Digest property.
   */
  lemma IsXmlByManifest(manifest: seq<seq<PropertyValue>>, uri: string, matches: (string, string) -> bool, k: int)
    requires 0 <= k < |manifest| && matches(uri, ScanEntry(manifest[k]).path)
    requires forall i :: 0 <= i < k ==> !matches(uri, ScanEntry(manifest[i]).path)
    ensures IsXml(manifest, uri, matches, false) <==>
      ScanEntry(manifest[k]).mediaType == XML_MEDIA_TYPE &&
      forall j :: 0 <= j < |manifest[k]| ==> manifest[k][j].name != DIGEST
  {
    EncryptedIffDigest(manifest[k]);
  }

  /**
   * When no entry matches, the stream is XML iff its name ends in '.'
   * followed by "xml" in any ASCII case.
   */
  lemma IsXmlByExtension(manifest: seq<seq<PropertyValue>>, uri: string, matches: (string, string) -> bool)
    requires forall i :: 0 <= i < |manifest| ==> !matches(uri, ScanEntry(manifest[i]).path)
    ensures IsXml(manifest, uri, matches, false) <==>
      |uri| >= 4 && uri[|uri| - 4] == '.' && EqualsIgnoreAsciiCase(uri[|uri| - 3..], XML_EXTENSION)
  {
    ExtensionIsXmlSuffix(uri);
  }

  /** The extension after the last '.' is "XML" iff the name ends in a '.' and three characters matching "XML". */
  lemma ExtensionIsXmlSuffix(uri: string)
    ensures ExtensionIsXml(uri) <==>
      |uri| >= 4 && uri[|uri| - 4] == '.' && EqualsIgnoreAsciiCase(uri[|uri| - 3..], XML_EXTENSION)
  {
    var sep := LastIndexOf(uri, '.');
    if |uri| >= 4 && uri[|uri| - 4] == '.' && EqualsIgnoreAsciiCase(uri[|uri| - 3..], XML_EXTENSION) {
      var tail := uri[|uri| - 3..];
      assert AsciiUpper(tail[0]) == 'X' && AsciiUpper(tail[1]) == 'M' && AsciiUpper(tail[2]) == 'L';
      assert '.' !in tail;
      assert uri[|uri| - 3..] == uri[|uri| - 4 + 1..];
      assert sep >= |uri| - 4;
    }
  }
}
