/**
 * The HTTP values the handlers produce: cache-control policies, media types,
 * content dispositions, and the mutable header set that the download handler
 * fills in one setter at a time.
 */
module Http {
  import opened Wrappers

  /** The directives of a `CacheControl` that the service can set. */
  datatype CacheControl = CacheControl(
    maxAge: Option<nat>,
    noCache: bool,
    noStore: bool,
    mustRevalidate: bool,
    cachePublic: bool,
    cachePrivate: bool,
    sMaxAge: Option<nat>)

  /** `CacheControl.empty()`: no directive at all. */
  function EmptyCache(): CacheControl {
    CacheControl(None, false, false, false, false, false, None)
  }

  /** `.cachePublic()` */
  function CachePublic(c: CacheControl): CacheControl {
    c.(cachePublic := true)
  }

  /** `.sMaxAge(duration)`, the duration in seconds. */
  function SMaxAge(c: CacheControl, seconds: nat): CacheControl {
    c.(sMaxAge := Some(seconds))
  }

  function Minutes(n: nat): nat { n * 60 }

  /** An `(type, subtype)` media type. */
  datatype MediaType = MediaType(mainType: string, subtype: string)

  /** `new MediaType("application", "java-archive")` */
  const JavaArchiveType: MediaType := MediaType("application", "java-archive")

  /** `ContentDisposition.attachment().filename(name, charset).build()` */
  datatype ContentDisposition = ContentDisposition(dispositionType: string, filename: string, charset: string)

  function Attachment(filename: string): ContentDisposition {
    ContentDisposition("attachment", filename, "UTF-8")
  }

  /**
   * The response headers of a download. The Last-Modified value (the file's
   * modification time) is not modelled, only whether it has been set.
   */
  class HttpHeaders {
    var cacheControl: Option<CacheControl>
    var contentDisposition: Option<ContentDisposition>
    var contentType: Option<MediaType>
    var lastModifiedSet: bool

    /** `new HttpHeaders()`: no header set. */
    constructor ()
      ensures cacheControl.None? && contentDisposition.None? && contentType.None? && !lastModifiedSet
    {
      cacheControl := None;
      contentDisposition := None;
      contentType := None;
      lastModifiedSet := false;
    }

    method SetCacheControl(c: CacheControl)
      modifies this
      ensures cacheControl == Some(c)
      ensures contentDisposition == old(contentDisposition) && contentType == old(contentType)
      ensures lastModifiedSet == old(lastModifiedSet)
    {
      cacheControl := Some(c);
    }

    method SetContentDisposition(d: ContentDisposition)
      modifies this
      ensures contentDisposition == Some(d)
      ensures cacheControl == old(cacheControl) && contentType == old(contentType)
      ensures lastModifiedSet == old(lastModifiedSet)
    {
      contentDisposition := Some(d);
    }

    method SetContentType(t: MediaType)
      modifies this
      ensures contentType == Some(t)
      ensures cacheControl == old(cacheControl) && contentDisposition == old(contentDisposition)
      ensures lastModifiedSet == old(lastModifiedSet)
    {
      contentType := Some(t);
    }

    method SetLastModified()
      modifies this
      ensures lastModifiedSet
      ensures cacheControl == old(cacheControl) && contentDisposition == old(contentDisposition)
      ensures contentType == old(contentType)
    {
      lastModifiedSet := true;
    }
  }
}
