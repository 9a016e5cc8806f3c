/**
 * libwrc_stream: the state a resource stream keeps around its file IO
 * handle: whether a handle is attached and whether the library opened or
 * created it, the virtual address of the resource section, and the fields
 * of its IO handle (libwrc_io_handle_t): the virtual address copied at
 * open, the stream size, the ASCII codepage and the abort flag. Reading
 * the resource tree is left to the caller's outcome parameters.
 */
module Stream {
  import opened Bytes

  /** LIBWRC_CODEPAGE_WINDOWS_1252, the codepage of a fresh or cleared IO handle. */
  const DefaultAsciiCodepage: int := 1252

  /** LIBWRC_CODEPAGE_ASCII. */
  const AsciiCodepage: int := 20127

  /** The codepages libwrc_stream_set_ascii_codepage accepts: ASCII and the Windows codepages 874, 932, 936, 949, 950 and 1250 to 1258. */
  predicate SupportedAsciiCodepage(codepage: int)
  {
    codepage == AsciiCodepage
    || codepage == 874 || codepage == 932 || codepage == 936 || codepage == 949 || codepage == 950
    || (1250 <= codepage <= 1258)
  }

  /** The ISO-8859 and KOI8 codepages the library defines are refused. */
  lemma UnsupportedCodepages(codepage: int)
    ensures 28591 <= codepage <= 28606 ==> !SupportedAsciiCodepage(codepage)
    ensures codepage == 20866 || codepage == 21866 ==> !SupportedAsciiCodepage(codepage)
    ensures SupportedAsciiCodepage(DefaultAsciiCodepage)
  {
  }

  /** The read and write bits of the access flags. */
  datatype AccessFlags = AccessFlags(read: bool, write: bool)

  /** A libbfio handle, named by the path it is opened on. */
  datatype FileIoHandle = FileIoHandle(name: string)

  /**
   * What libbfio and the tree reader answer while a handle is attached:
   * whether the handle is already open (an error when it cannot tell),
   * whether opening it succeeds, its size (`None` when it cannot be
   * determined), and whether the resource tree is read without error.
   */
  datatype OpenOutcome = OpenOutcome(isOpen: Result<bool>, opens: bool, size: Option<nat>, treeReads: bool)

  class Stream {
    var fileIoHandle: Option<FileIoHandle>
    var openedInLibrary: bool
    var createdInLibrary: bool
    /** The virtual address set on the stream. */
    var virtualAddress: nat
    /** io_handle->virtual_address. */
    var ioVirtualAddress: nat
    /** io_handle->stream_size. */
    var streamSize: nat
    /** io_handle->ascii_codepage. */
    var asciiCodepage: int
    /** io_handle->abort. */
    var abort: bool

    /** Only an attached handle can have been opened or created by the library; the addresses are 32-bit. */
    predicate Valid()
      reads this
    {
      (fileIoHandle.None? ==> !openedInLibrary && !createdInLibrary)
      && virtualAddress < 0x1_0000_0000 && ioVirtualAddress < 0x1_0000_0000
    }

    /** libwrc_stream_initialize: no handle, and a fresh IO handle with the default codepage. */
    constructor ()
      ensures fileIoHandle.None? && !openedInLibrary && !createdInLibrary
      ensures virtualAddress == 0 && ioVirtualAddress == 0 && streamSize == 0
      ensures asciiCodepage == DefaultAsciiCodepage && !abort
      ensures Valid()
    {
      fileIoHandle, openedInLibrary, createdInLibrary := None, false, false;
      virtualAddress, ioVirtualAddress, streamSize := 0, 0, 0;
      asciiCodepage, abort := DefaultAsciiCodepage, false;
    }

    /** libwrc_stream_signal_abort. */
    method SignalAbort() returns (r: Result<()>)
      requires Valid()
      modifies this
      ensures Valid()
      ensures r == Ok(()) && abort
      ensures fileIoHandle == old(fileIoHandle) && openedInLibrary == old(openedInLibrary) && createdInLibrary == old(createdInLibrary)
      ensures virtualAddress == old(virtualAddress) && ioVirtualAddress == old(ioVirtualAddress)
      ensures streamSize == old(streamSize) && asciiCodepage == old(asciiCodepage)
    {
      abort := true;
      r := Ok(());
    }

    /** libwrc_stream_get_ascii_codepage. */
    method GetAsciiCodepage() returns (codepage: int)
      ensures codepage == asciiCodepage
    {
      codepage := asciiCodepage;
    }

    /** libwrc_stream_set_ascii_codepage: a supported codepage is stored, any other is refused and the old one kept. */
    method SetAsciiCodepage(codepage: int) returns (r: Result<()>)
      requires Valid()
      modifies this
      ensures Valid()
      ensures SupportedAsciiCodepage(codepage) ==> r == Ok(()) && asciiCodepage == codepage
      ensures !SupportedAsciiCodepage(codepage) ==> r == Err(UnsupportedValue) && asciiCodepage == old(asciiCodepage)
      ensures fileIoHandle == old(fileIoHandle) && openedInLibrary == old(openedInLibrary) && createdInLibrary == old(createdInLibrary)
      ensures virtualAddress == old(virtualAddress) && ioVirtualAddress == old(ioVirtualAddress)
      ensures streamSize == old(streamSize) && abort == old(abort)
    {
      if !SupportedAsciiCodepage(codepage) {
        return Err(UnsupportedValue);
      }
      asciiCodepage := codepage;
      r := Ok(());
    }

    /** libwrc_stream_get_virtual_address. */
    method GetVirtualAddress() returns (address: nat)
      ensures address == virtualAddress
    {
      address := virtualAddress;
    }

    /** libwrc_stream_set_virtual_address: any 32-bit value is stored. */
    method SetVirtualAddress(address: nat) returns (r: Result<()>)
      requires Valid() && address < 0x1_0000_0000
      modifies this
      ensures Valid()
      ensures r == Ok(()) && virtualAddress == address
      ensures fileIoHandle == old(fileIoHandle) && openedInLibrary == old(openedInLibrary) && createdInLibrary == old(createdInLibrary)
      ensures ioVirtualAddress == old(ioVirtualAddress) && streamSize == old(streamSize)
      ensures asciiCodepage == old(asciiCodepage) && abort == old(abort)
    {
      virtualAddress := address;
      r := Ok(());
    }

    /**
     * libwrc_internal_stream_open_read: clears the abort flag, copies the
     * stream's virtual address into the IO handle, takes the handle's size
     * and reads the resource tree. The first two happen even when a later
     * step fails. It runs while the handle is not yet attached, so the
     * library may already have opened it.
     */
    method OpenRead(io: OpenOutcome) returns (r: Result<()>)
      requires virtualAddress < 0x1_0000_0000
      modifies this
      ensures !abort && ioVirtualAddress == virtualAddress
      ensures io.size.Some? ==> streamSize == io.size.value
      ensures io.size.None? ==> streamSize == old(streamSize)
      ensures r.Ok? <==> io.size.Some? && io.treeReads
      ensures r.Err? ==> r.error == OpenFailed
      ensures fileIoHandle == old(fileIoHandle) && openedInLibrary == old(openedInLibrary) && createdInLibrary == old(createdInLibrary)
      ensures virtualAddress == old(virtualAddress) && asciiCodepage == old(asciiCodepage)
    {
      abort := false;
      ioVirtualAddress := virtualAddress;
      if io.size.None? {
        return Err(OpenFailed);
      }
      streamSize := io.size.value;
      if !io.treeReads {
        return Err(OpenFailed);
      }
      r := Ok(());
    }

    /**
     * libwrc_stream_open_file_io_handle: refused when a handle is attached,
     * for a NULL handle, without read access and with write access. A
     * handle that is not open yet is opened by the library, and closed
     * again when the read fails; only a successful open attaches it.
     */
    method OpenFileIoHandle(handle: Option<FileIoHandle>, flags: AccessFlags, io: OpenOutcome) returns (r: Result<()>)
      requires Valid()
      modifies this
      ensures Valid()
      ensures createdInLibrary == old(createdInLibrary)
      ensures virtualAddress == old(virtualAddress) && asciiCodepage == old(asciiCodepage)
      ensures old(fileIoHandle).Some? ==> r == Err(AlreadySet) && fileIoHandle == old(fileIoHandle) && abort == old(abort)
      ensures old(fileIoHandle).None? && (handle.None? || !flags.read || flags.write) ==>
        r.Err? && fileIoHandle.None? && abort == old(abort)
      ensures old(fileIoHandle).None? && handle.None? ==> r == Err(InvalidArgument)
      ensures old(fileIoHandle).None? && handle.Some? && (!flags.read || flags.write) ==> r == Err(UnsupportedValue)
      ensures old(fileIoHandle).None? && handle.Some? && flags.read && !flags.write ==>
        (r.Ok? <==> (io.isOpen == Ok(true) || (io.isOpen == Ok(false) && io.opens)) && io.size.Some? && io.treeReads)
      ensures r.Ok? ==> fileIoHandle == handle && (openedInLibrary <==> io.isOpen == Ok(false))
      ensures r.Ok? ==> !abort && ioVirtualAddress == virtualAddress && io.size.Some? && streamSize == io.size.value
      ensures r.Err? ==> fileIoHandle == old(fileIoHandle) && openedInLibrary == old(openedInLibrary)
    {
      if fileIoHandle.Some? {
        return Err(AlreadySet);
      }
      if handle.None? {
        return Err(InvalidArgument);
      }
      if !flags.read && !flags.write {
        return Err(UnsupportedValue);
      }
      if flags.write {
        return Err(UnsupportedValue);
      }
      if io.isOpen.Err? {
        return Err(OpenFailed);
      }
      if !io.isOpen.value {
        if !io.opens {
          return Err(OpenFailed);
        }
        openedInLibrary := true;
      }
      var read := OpenRead(io);
      if read.Err? {
        // on_error: a handle opened here is closed again
        if !io.isOpen.value && openedInLibrary {
          openedInLibrary := false;
        }
        fileIoHandle := None;
        return Err(OpenFailed);
      }
      fileIoHandle := handle;
      r := Ok(());
    }

    /**
     * libwrc_stream_open: the filename and access checks, then a libbfio
     * file handle on `filename` (`created` says whether creating it and
     * setting its name succeed) that is opened as above; the library owns
     * the handle it created only when that open succeeds.
     */
    method Open(filename: Option<string>, flags: AccessFlags, created: bool, io: OpenOutcome) returns (r: Result<()>)
      requires Valid()
      modifies this
      ensures Valid()
      ensures virtualAddress == old(virtualAddress) && asciiCodepage == old(asciiCodepage)
      ensures filename.None? ==> r == Err(InvalidArgument) && fileIoHandle == old(fileIoHandle)
      ensures filename.Some? && (!flags.read || flags.write) ==> r == Err(UnsupportedValue) && fileIoHandle == old(fileIoHandle)
      ensures filename.Some? && flags.read && !flags.write && (old(fileIoHandle).Some? || !created) ==>
        r == Err(OpenFailed) && fileIoHandle == old(fileIoHandle)
      ensures filename.Some? && flags.read && !flags.write && old(fileIoHandle).None? && created ==>
        (r.Ok? <==> (io.isOpen == Ok(true) || (io.isOpen == Ok(false) && io.opens)) && io.size.Some? && io.treeReads)
      ensures r.Ok? ==> fileIoHandle == Some(FileIoHandle(filename.value)) && createdInLibrary
      ensures r.Ok? ==> (openedInLibrary <==> io.isOpen == Ok(false))
      ensures r.Ok? ==> !abort && ioVirtualAddress == virtualAddress && io.size.Some? && streamSize == io.size.value
      ensures r.Err? ==> fileIoHandle == old(fileIoHandle) && createdInLibrary == old(createdInLibrary)
    {
      if filename.None? {
        return Err(InvalidArgument);
      }
      if !flags.read && !flags.write {
        return Err(UnsupportedValue);
      }
      if flags.write {
        return Err(UnsupportedValue);
      }
      if !created {
        return Err(OpenFailed);
      }
      var attached := OpenFileIoHandle(Some(FileIoHandle(filename.value)), flags, io);
      if attached.Err? {
        // on_error: the handle created here is freed
        return Err(OpenFailed);
      }
      createdInLibrary := true;
      r := Ok(());
    }

    /**
     * libwrc_stream_close: refused without an attached handle. Otherwise a
     * handle the library opened is closed (`closes` says whether that
     * succeeds) and one it created is freed (`frees` likewise), the handle
     * is detached and the IO handle cleared, so the codepage is back to
     * 1252. A failing step is reported but does not stop the others.
     */
    method Close(closes: bool, frees: bool) returns (r: Result<()>)
      requires Valid()
      modifies this
      ensures Valid()
      ensures virtualAddress == old(virtualAddress)
      ensures old(fileIoHandle).None? ==> r == Err(ValueMissing)
      ensures old(fileIoHandle).None? ==>
        fileIoHandle == old(fileIoHandle) && openedInLibrary == old(openedInLibrary) && createdInLibrary == old(createdInLibrary)
        && ioVirtualAddress == old(ioVirtualAddress) && streamSize == old(streamSize)
        && asciiCodepage == old(asciiCodepage) && abort == old(abort)
      ensures old(fileIoHandle).Some? ==> fileIoHandle.None? && !openedInLibrary && !createdInLibrary
      ensures old(fileIoHandle).Some? ==>
        ioVirtualAddress == 0 && streamSize == 0 && asciiCodepage == DefaultAsciiCodepage && !abort
      ensures old(fileIoHandle).Some? ==>
        (r == Ok(()) <==> (!old(openedInLibrary) || closes) && (!old(createdInLibrary) || frees))
      ensures r.Err? && old(fileIoHandle).Some? ==> r.error == CloseFailed
    {
      if fileIoHandle.None? {
        return Err(ValueMissing);
      }
      r := Ok(());
      if openedInLibrary {
        if !closes {
          r := Err(CloseFailed);
        }
        openedInLibrary := false;
      }
      if createdInLibrary {
        if !frees {
          r := Err(CloseFailed);
        }
        createdInLibrary := false;
      }
      fileIoHandle := None;
      // libwrc_io_handle_clear
      ioVirtualAddress, streamSize, asciiCodepage, abort := 0, 0, DefaultAsciiCodepage, false;
    }
  }
}
