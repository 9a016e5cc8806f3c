/**
 * libwrc_version_information_resource: a VERSIONINFO resource read from an
 * in-memory buffer, keeping the file and product versions of its fixed
 * file information.
 */
module VersionInformationResource {
  import opened Bytes
  import opened VersionLayout
  import opened VersionWalkers

  class VersionInformationResource {
    var fileVersion: nat
    var productVersion: nat

    constructor ()
      ensures fileVersion == 0 && productVersion == 0
    {
      fileVersion, productVersion := 0, 0;
    }

    /**
     * libwrc_version_information_resource_read: walks the resource with
     * alignment checks. The versions are stored as soon as the fixed file
     * information has been read, and stay stored if a later block fails.
     * `data` is `None` for a NULL pointer.
     */
    method Read(data: Option<seq<byte>>) returns (r: Result<()>)
      modifies this
      ensures data.None? ==> r == Err(InvalidArgument)
      ensures data.None? || VersionDecode(data.value, true).versions.None? ==>
        fileVersion == old(fileVersion) && productVersion == old(productVersion)
      ensures data.Some? ==> r == Status(VersionDecode(data.value, true))
      ensures data.Some? && VersionDecode(data.value, true).versions.Some? ==>
        Versions(fileVersion, productVersion) == VersionDecode(data.value, true).versions.value
    {
      if data.None? {
        return Err(InvalidArgument);
      }
      var bytes := data.value;
      var parsed := ReadVersion(bytes, true);
      if parsed.versions.Some? {
        fileVersion := parsed.versions.value.fileVersion;
        productVersion := parsed.versions.value.productVersion;
      }
      r := Status(parsed);
    }

    /** libwrc_version_information_resource_get_file_version. */
    method GetFileVersion() returns (version: nat)
      ensures version == fileVersion
    {
      version := fileVersion;
    }

    /** libwrc_version_information_resource_get_product_version. */
    method GetProductVersion() returns (version: nat)
      ensures version == productVersion
    {
      version := productVersion;
    }
  }
}
