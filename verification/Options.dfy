/** The task options that select a library: how the client writes them and how the worker reads them. */
module Options {
  import opened Prelude

  const KEY_CONVENTION_VERSION := "ConventionVersion"
  const KEY_LIBRARY_PATH := "LibraryPath"
  const KEY_SYMBOL := "Symbol"
  const KEY_LIBRARY_BLOB_ID := "LibraryBlobId"
  const CONVENTION_VERSION := "v1"

  datatype DynamicLibrary = DynamicLibrary(libraryPath: string, symbol: string, libraryBlobId: string)

  datatype OptionsError = MissingLibraryPath | MissingConventionVersion

  function Get(options: map<string, string>, key: string): string {
    if key in options then options[key] else ""
  }

  function WithLibrary(options: map<string, string>, lib: DynamicLibrary): map<string, string> {
    var o := options[KEY_CONVENTION_VERSION := CONVENTION_VERSION]
             [KEY_LIBRARY_PATH := lib.libraryPath]
             [KEY_SYMBOL := lib.symbol];
    if lib.libraryBlobId == "" then o else o[KEY_LIBRARY_BLOB_ID := lib.libraryBlobId]
  }

  function GetDynamicLibrary(options: map<string, string>): Result<DynamicLibrary, OptionsError> {
    var blobId := Get(options, KEY_LIBRARY_BLOB_ID);
    var path := Get(options, KEY_LIBRARY_PATH);
    if path == "" && blobId == "" then Failure(MissingLibraryPath)
    else Success(DynamicLibrary(path, Get(options, KEY_SYMBOL), blobId))
  }

  function GetConventionVersion(options: map<string, string>): Result<string, OptionsError> {
    if KEY_CONVENTION_VERSION in options then Success(options[KEY_CONVENTION_VERSION])
    else Failure(MissingConventionVersion)
  }

  class TaskOptions {
    var options: map<string, string>

    constructor (options: map<string, string>)
      ensures this.options == options
    {
      this.options := options;
    }

    method SetDynamicLibrary(lib: DynamicLibrary)
      modifies this
      ensures options == WithLibrary(old(options), lib)
    {
      options := options[KEY_CONVENTION_VERSION := CONVENTION_VERSION];
      options := options[KEY_LIBRARY_PATH := lib.libraryPath];
      options := options[KEY_SYMBOL := lib.symbol];
      if lib.libraryBlobId != "" {
        options := options[KEY_LIBRARY_BLOB_ID := lib.libraryBlobId];
      }
    }
  }

  lemma KeysDiffer()
    ensures KEY_LIBRARY_BLOB_ID != KEY_LIBRARY_PATH && KEY_LIBRARY_BLOB_ID != KEY_SYMBOL
    ensures KEY_LIBRARY_BLOB_ID != KEY_CONVENTION_VERSION && KEY_LIBRARY_PATH != KEY_SYMBOL
    ensures KEY_LIBRARY_PATH != KEY_CONVENTION_VERSION && KEY_SYMBOL != KEY_CONVENTION_VERSION
  {
    assert KEY_LIBRARY_BLOB_ID[7] == 'B' && KEY_LIBRARY_PATH[7] == 'P';
    assert |KEY_SYMBOL| == 6 && |KEY_CONVENTION_VERSION| == 17;
  }

  /**
   * The worker reads back the library the client wrote exactly when it has a blob id, or a path and no
   * blob id is left over from an earlier library: setting a library without a blob id does not erase one.
   */
  lemma LibraryRoundTripExactly(options: map<string, string>, lib: DynamicLibrary)
    ensures GetDynamicLibrary(WithLibrary(options, lib)) == Success(lib)
       <==> lib.libraryBlobId != "" || (lib.libraryPath != "" && Get(options, KEY_LIBRARY_BLOB_ID) == "")
    ensures GetConventionVersion(WithLibrary(options, lib)) == Success(CONVENTION_VERSION)
  {
    KeysDiffer();
  }
}
