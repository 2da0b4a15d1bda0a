/**
 * The decision logic of DocumentSignatureManager::ImplOpenSignatureStream:
 * which stream and sub-storage a signature operation works on, which
 * storage format the package has, and whether the stream is truncated,
 * rewound or left alone. Streams are not opened here; only the choice is.
 */
module StreamResolver {

  /** A stored value that may be absent, as a UNO reference may be null. */
  datatype Option<T> = None | Some(value: T)

  /**
   * The package format. OFOPXML is the format with parts and content
   * types; every other format (the zip-based package of ODF) behaves
   * alike here.
   */
  datatype StorageFormat = Package | Ofopxml

  /**
   * A signature stream: none, a temporary file (told apart from other
   * temporary files by the number of its creation), the dedicated stream
   * the host supplied, or one the package helper opened from the storage.
   */
  datatype StreamRef = NoStream | TempStream(generation: nat) | DedicatedStream | PackageStream

  /** A signature sub-storage: none, one wrapping a temporary file, or one the package helper opened. */
  datatype StorageRef = NoStorage | TempStorage(generation: nat) | PackageStorage

  /** SignatureStreamHelper: the format, the stream and the sub-storage handed to the caller. */
  datatype StreamHelper = StreamHelper(format: StorageFormat, stream: StreamRef, storage: StorageRef)

  /** What is done to the stream after it is chosen. */
  datatype StreamAction = Truncate | SeekStart | NoAction

  /**
   * The manager's temporary objects: mxTempSignatureStream and
   * mxTempSignatureStorage (each the creation number of the temporary file
   * it is or wraps), and how many temporary files have been created.
   */
  datatype TempState = TempState(stream: Option<nat>, storage: Option<nat>, created: nat)

  /** Every temporary object is one of the files created so far. */
  predicate TempValid(t: TempState)
  {
    (t.stream.Some? ==> t.stream.value < t.created) && (t.storage.Some? ==> t.storage.value < t.created)
  }

  /**
   * The outcome: the chosen helper, the action on its stream and the new
   * temporary objects; or the RuntimeException that UNO_QUERY_THROW raises
   * when the stream to rewind is null.
   */
  datatype Resolution = Resolved(helper: StreamHelper, action: StreamAction, temp: TempState) | NullStreamThrown

  /** The format marker: a package is OFOPXML iff its storage has an entry of this name. */
  const CONTENT_TYPES: string := "[Content_Types].xml"

  /** com.sun.star.embed.ElementModes. */
  const READ: bv32 := 1
  const WRITE: bv32 := 4
  const TRUNCATE: bv32 := 8

  /** The format probe; a null storage gives the default format. */
  function ProbeFormat(store: Option<set<string>>): (r: StorageFormat)
    ensures r == Ofopxml <==> store.Some? && CONTENT_TYPES in store.value
  {
    if store.Some? && CONTENT_TYPES in store.value then Ofopxml else Package
  }

  /**
   * ImplOpenSignatureStream on values. `dedicated` is mxSignatureStream.is();
   * `fromPackage` is what DocumentSignatureHelper::OpenSignatureStream
   * returns, consulted only when neither a temporary nor a dedicated stream
   * is used.
   */
  function Resolve(store: Option<set<string>>, mode: bv32, useTemp: bool, t: TempState, dedicated: bool,
                   fromPackage: StreamHelper): (r: Resolution)
    ensures TempValid(t) && r.Resolved? ==> TempValid(r.temp)
    ensures r.NullStreamThrown? <==> mode & TRUNCATE == 0 && useTemp && t.stream.None?
    ensures r.Resolved? && (useTemp || dedicated) ==> r.helper.format == ProbeFormat(store)
    ensures r.Resolved? && !useTemp ==> r.temp == t
  {
    var format := ProbeFormat(store);
    var truncate := mode & TRUNCATE != 0;
    var t' :=
      if useTemp && truncate then
        TempState(Some(t.created), if format == Ofopxml then Some(t.created) else t.storage, t.created + 1)
      else t;
    var helper :=
      if useTemp then
        StreamHelper(format,
          if t'.stream.Some? then TempStream(t'.stream.value) else NoStream,
          if format == Ofopxml && t'.storage.Some? then TempStorage(t'.storage.value) else NoStorage)
      else if !dedicated then fromPackage
      else StreamHelper(format, DedicatedStream, NoStorage);
    if truncate then
      Resolved(helper, if helper.stream != NoStream && helper.format != Ofopxml then Truncate else NoAction, t')
    else if useTemp || dedicated then
      if helper.stream == NoStream then NullStreamThrown else Resolved(helper, SeekStart, t')
    else Resolved(helper, NoAction, t')
  }

  /**
   * A truncating open of the temporary stream always installs a brand-new
   * temporary file, hands it out as the stream, and wraps it in a new
   * temporary storage exactly for OFOPXML (otherwise the old storage, if
   * any, is kept and not handed out).
   */
  lemma TempTruncateIsFresh(store: Option<set<string>>, mode: bv32, t: TempState, dedicated: bool, fromPackage: StreamHelper)
    requires TempValid(t) && mode & TRUNCATE != 0
    ensures var r := Resolve(store, mode, true, t, dedicated, fromPackage);
      && r.Resolved? && TempValid(r.temp)
      && r.temp.stream == Some(t.created) && t.stream != r.temp.stream
      && r.helper.stream == TempStream(t.created)
      && (ProbeFormat(store) == Ofopxml <==> r.temp.storage == Some(t.created))
      && (ProbeFormat(store) == Ofopxml ==> r.helper.storage == TempStorage(t.created))
      && (ProbeFormat(store) != Ofopxml ==> r.temp.storage == t.storage && r.helper.storage == NoStorage)
  {
  }

  /** A reading open of the temporary stream reuses the existing one, and throws when there is none. */
  lemma TempReadReuses(store: Option<set<string>>, mode: bv32, t: TempState, dedicated: bool, fromPackage: StreamHelper)
    requires mode & TRUNCATE == 0
    ensures var r := Resolve(store, mode, true, t, dedicated, fromPackage);
      if t.stream.None? then r.NullStreamThrown?
      else r.Resolved? && r.temp == t && r.helper.stream == TempStream(t.stream.value) && r.action == SeekStart
  {
  }

  /** Truncation is applied exactly to a non-null stream of a non-OFOPXML package opened with TRUNCATE. */
  lemma TruncateOnlyNonOfopxml(store: Option<set<string>>, mode: bv32, useTemp: bool, t: TempState, dedicated: bool,
                               fromPackage: StreamHelper)
    ensures var r := Resolve(store, mode, useTemp, t, dedicated, fromPackage);
      r.Resolved? && r.action == Truncate <==>
        mode & TRUNCATE != 0 && (r.Resolved? && r.helper.stream != NoStream && r.helper.format != Ofopxml)
  {
  }

  /**
   * Without TRUNCATE, the stream is rewound exactly when it is the
   * temporary or the dedicated one; one opened directly from the package is
   * never rewound, and comes back unchanged.
   */
  lemma SeekOnlyTempOrDedicated(store: Option<set<string>>, mode: bv32, useTemp: bool, t: TempState, dedicated: bool,
                                fromPackage: StreamHelper)
    requires mode & TRUNCATE == 0
    ensures var r := Resolve(store, mode, useTemp, t, dedicated, fromPackage);
      r.Resolved? ==> (r.action == SeekStart <==> useTemp || dedicated)
    ensures !useTemp && !dedicated ==> Resolve(store, mode, useTemp, t, dedicated, fromPackage) == Resolved(fromPackage, NoAction, t)
    ensures !useTemp && dedicated ==>
      Resolve(store, mode, useTemp, t, dedicated, fromPackage) ==
        Resolved(StreamHelper(ProbeFormat(store), DedicatedStream, NoStorage), SeekStart, t)
  {
  }

  /**
   * mxTempSignatureStorage changes only for a truncating temporary open of
   * an OFOPXML package, and a temporary storage is handed out only for OFOPXML.
   */
  lemma TempStorageOnlyForOfopxml(store: Option<set<string>>, mode: bv32, useTemp: bool, t: TempState, dedicated: bool,
                                  fromPackage: StreamHelper)
    ensures var r := Resolve(store, mode, useTemp, t, dedicated, fromPackage);
      r.Resolved? && r.temp.storage != t.storage ==> ProbeFormat(store) == Ofopxml && useTemp && mode & TRUNCATE != 0
    ensures var r := Resolve(store, mode, useTemp, t, dedicated, fromPackage);
      useTemp && r.Resolved? && r.helper.storage.TempStorage? ==> r.helper.format == Ofopxml
  {
  }

  /** A reading open creates no temporary object. */
  lemma ReadKeepsTemp(store: Option<set<string>>, useTemp: bool, t: TempState, dedicated: bool, fromPackage: StreamHelper)
    ensures var r := Resolve(store, READ, useTemp, t, dedicated, fromPackage); r.Resolved? ==> r.temp == t
  {
  }
}
