/**
 * drivers/gpu/drm/nouveau/nouveau_prime.c: nouveau's own PRIME export and import. The
 * export caches the dma-buf and its descriptor on the GEM object (export_dma_buf, prime_fd);
 * the import deduplicates through the per-file registry, then attaches, maps, wraps the
 * mapping in a new buffer object and registers the new handle.
 */
module NouveauPrime {
  import opened Kernel
  import opened DmaBufs
  import opened Gem
  import DrmPrime

  const TTM_PL_FLAG_TT: int := 2
  const NOUVEAU_GEM_DOMAIN_GART: int := 4

  /** struct nouveau_bo, restricted to what the PRIME code reads and writes. */
  class NouveauBo {
    /** bo.mem.size */
    const size: nat
    /** bo.num_pages and bo.ttm->pages */
    const numPages: nat
    const pages: array<Page>
    /** The scatter table the buffer object was created over, for an import. */
    const sg: SgTable?
    /** The TTM reference count. */
    var refs: int
    var validDomains: int
    var gem: GemObject?

    constructor (size: nat, sg: SgTable?)
      ensures this.size == size && this.sg == sg && refs == 1 && gem == null
      ensures numPages == size / PAGE_SIZE && pages.Length == numPages && fresh(pages)
    {
      this.size, this.sg := size, sg;
      numPages := size / PAGE_SIZE;
      pages := new Page[size / PAGE_SIZE];
      refs, validDomains, gem := 1, 0, null;
    }
  }

  // ---------------------------------------------------------------------------------------
  // dma_buf_ops callbacks

  /** nouveau_gem_map_dma_buf: a scatter table over the exporter's pages. */
  method MapDmaBuf(attachment: Attachment, nvbo: NouveauBo) returns (sg: SgTable?)
    requires attachment.dmabuf.priv == nvbo && nvbo.numPages <= nvbo.pages.Length
    ensures sg != null ==> fresh(sg) && fresh(sg.sgl) && sg.live && sg.sgl.Length == nvbo.numPages
    ensures sg != null ==> forall i :: 0 <= i < nvbo.numPages ==> sg.sgl[i] == Segment(nvbo.pages[i], PAGE_SIZE, 0)
  {
    // struct_mutex is held around the call; locking is not modelled
    sg := DrmPrime.PagesToSg(nvbo.pages, nvbo.numPages);
  }

  /** nouveau_gem_unmap_dma_buf: frees the table. */
  method UnmapDmaBuf(attachment: Attachment, sg: SgTable)
    modifies sg`live
    ensures !sg.live
  {
    sg.live := false;
  }

  /**
   * nouveau_gem_dmabuf_release: when the released buffer is the object's cached export,
   * forgets the export and its descriptor and drops the reference the export held.
   */
  method DmabufRelease(dmaBuf: DmaBuf, nvbo: NouveauBo)
    requires dmaBuf.priv == nvbo && nvbo.gem != null
    modifies nvbo.gem`primeFd, nvbo.gem`exportDmaBuf, nvbo.gem`refs
    ensures old(nvbo.gem.exportDmaBuf) == Addr(dmaBuf) ==>
      nvbo.gem.primeFd == -1 && nvbo.gem.exportDmaBuf == Null && nvbo.gem.refs == old(nvbo.gem.refs) - 1
    ensures old(nvbo.gem.exportDmaBuf) != Addr(dmaBuf) ==> unchanged(nvbo.gem)
  {
    var gem := nvbo.gem;
    if gem.exportDmaBuf == Addr(dmaBuf) {
      gem.primeFd := -1;
      gem.exportDmaBuf := Null;
      ObjectUnreference(gem);
    }
  }

  // ---------------------------------------------------------------------------------------
  // Buffer objects

  /** nouveau_bo_new: a new buffer object over `sg`, or an error. */
  method BoNew(size: nat, flags: int, sg: SgTable?) returns (ret: int, nvbo: NouveauBo?)
    ensures ret == 0 || IsErrno(ret)
    ensures ret == 0 <==> nvbo != null
    ensures nvbo != null ==> fresh(nvbo) && nvbo.size == size && nvbo.sg == sg && nvbo.refs == 1 && nvbo.gem == null
  {
    var ok: bool := *;
    if ok {
      nvbo := new NouveauBo(size, sg);
      ret := 0;
    } else {
      nvbo := null;
      ret := SomeErrno();
    }
  }

  /** nouveau_bo_pin: pins the buffer into a domain, or fails. */
  method BoPin(nvbo: NouveauBo, domain: int) returns (ret: int)
    ensures ret == 0 || IsErrno(ret)
  {
    var ok: bool := *;
    if ok {
      ret := 0;
    } else {
      ret := SomeErrno();
    }
  }

  /**
   * nouveau_prime_new: a buffer object over the imported table, restricted to the GART
   * domain, with a GEM object pointing back at it. `bo` is the buffer object nouveau_bo_new
   * made, if it made one: when the GEM allocation fails it is released again.
   */
  method PrimeNew(dev: DrmDevice, size: nat, sg: SgTable?) returns (ret: int, nvbo: NouveauBo?, ghost bo: NouveauBo?)
    ensures ret == 0 || IsErrno(ret)
    ensures ret != 0 ==> nvbo == null
    ensures bo == null ==> ret != 0
    ensures bo != null && ret != 0 ==> ret == -ENOMEM && bo.refs == 0
    ensures ret == 0 ==>
      nvbo != null && nvbo == bo && fresh(nvbo) && nvbo.sg == sg && nvbo.size == size && nvbo.refs == 1 &&
      nvbo.validDomains == NOUVEAU_GEM_DOMAIN_GART &&
      nvbo.gem != null && fresh(nvbo.gem) && Initialised(nvbo.gem, size) && nvbo.gem.driverPrivate == nvbo
  {
    ret, nvbo := BoNew(size, TTM_PL_FLAG_TT, sg);
    bo := nvbo;
    if ret != 0 {
      return;
    }
    nvbo.validDomains := NOUVEAU_GEM_DOMAIN_GART;
    nvbo.gem := ObjectAlloc(nvbo.size);
    if nvbo.gem == null {
      // nouveau_bo_ref(NULL, pnvbo): drop the reference and clear the pointer
      nvbo.refs := nvbo.refs - 1;
      nvbo := null;
      return -ENOMEM, nvbo, bo;
    }
    nvbo.gem.driverPrivate := nvbo;
    return 0, nvbo, bo;
  }

  // ---------------------------------------------------------------------------------------
  // Export

  datatype ExportPath = NoObject | Cached | PinFailed | ExportFailed | Exported

  /**
   * nouveau_gem_prime_handle_to_fd. `primeFdIn` is what *prime_fd held before the call. An
   * object with a cached descriptor returns it; otherwise the buffer is pinned, exported and
   * given a descriptor, and both are cached.
   */
  method HandleToFd(dev: DrmDevice, file: DrmFile, fds: FdTable, handle: Handle, primeFdIn: int)
    returns (ret: int, primeFd: int, ghost path: ExportPath)
    requires handle in file.handles ==> file.handles[handle].driverPrivate is NouveauBo
    modifies fds, Named(file, handle)`refs, Named(file, handle)`exportDmaBuf, Named(file, handle)`primeFd
    ensures path == NoObject <==> handle !in file.handles
    ensures path == NoObject ==> ret == -ENOENT && primeFd == primeFdIn && unchanged(fds)
    ensures path != Exported ==> unchanged(fds)
    ensures handle in file.handles ==>
      var gem := file.handles[handle];
      && (path == Cached <==> old(gem.primeFd) != -1)
      // a cached descriptor is returned, with the lookup reference dropped and no new export
      && (path == Cached ==>
            ret == 0 && primeFd == old(gem.primeFd) && unchanged(gem))
      && (path == PinFailed ==>
            ret == -EINVAL && primeFd == primeFdIn && unchanged(gem))
      // a failed export drops the reference and returns its error; the ERR_PTR stays cached
      && (path == ExportFailed ==>
            gem.exportDmaBuf.ErrPtr? && ret == gem.exportDmaBuf.errno && primeFd == primeFdIn &&
            gem.refs == old(gem.refs) && gem.primeFd == -1)
      // the first export caches the new buffer and its descriptor, and keeps the reference
      && (path == Exported ==>
            ret == 0 && gem.exportDmaBuf.Addr? && fresh(gem.exportDmaBuf.target) &&
            gem.exportDmaBuf.target.priv == gem.driverPrivate && gem.exportDmaBuf.target.refs == 1 &&
            primeFd == gem.primeFd && gem.refs == old(gem.refs) + 1 &&
            (primeFd >= 0 ==> fds.files == old(fds.files)[primeFd := gem.exportDmaBuf.target]) &&
            (primeFd < 0 ==> fds.files == old(fds.files)))
  {
    primeFd := primeFdIn;
    ret := 0;
    var gem := ObjectLookup(file, handle);
    if gem == null {
      return -ENOENT, primeFd, NoObject;
    }
    var nvbo := gem.driverPrivate as NouveauBo;

    if gem.primeFd != -1 {
      // drop the lookup reference: the descriptor already holds one
      ObjectUnreference(gem);
      primeFd := gem.primeFd;
      return ret, primeFd, Cached;
    }

    ret := BoPin(nvbo, TTM_PL_FLAG_TT);
    if ret != 0 {
      ObjectUnreference(gem);
      return -EINVAL, primeFd, PinFailed;
    }

    gem.exportDmaBuf := DmaBufExport(nvbo, gem.size);
    if gem.exportDmaBuf.IsErr() {
      ret := gem.exportDmaBuf.PtrErr();
      ObjectUnreference(gem);
      return ret, primeFd, ExportFailed;
    }
    gem.primeFd := DmaBufFd(fds, gem.exportDmaBuf);
    // the lookup reference stays with the export
    primeFd := gem.primeFd;
    return ret, primeFd, Exported;
  }

  // ---------------------------------------------------------------------------------------
  // Import

  datatype ImportPath =
    | GetFailed | Found | AttachFailed | MapFailed | NewFailed | HandleFailed | InsertFailed | Imported

  /**
   * The second half of nouveau_gem_prime_fd_to_handle, once `sg` maps `attach`: a buffer
   * object over the table, a handle for its GEM object and a registry entry for the buffer.
   * A failure leaves the mapping and the attachment for the caller to release. On a failed
   * insert `handle` is the handle that was created. `bo` is the buffer object nouveau_bo_new
   * made and `made` its GEM object, on the paths where they were made.
   */
  method WrapImport(dev: DrmDevice, file: DrmFile, prime: DrmPrime.PrimeFilePrivate, dmaBuf: DmaBuf,
                    attach: Attachment, sg: SgTable)
    returns (ret: int, handle: Handle, ghost path: ImportPath, ghost bo: NouveauBo?, ghost made: GemObject?)
    modifies prime`entries, file`handles
    ensures path in {NewFailed, HandleFailed, InsertFailed, Imported}
    ensures path != Imported ==> IsErrno(ret) && prime.entries == old(prime.entries)
    ensures path in {NewFailed, HandleFailed} ==> file.handles == old(file.handles)
    // a buffer object made before the GEM allocation failed is released again
    ensures path == NewFailed && bo != null ==> ret == -ENOMEM && bo.refs == 0
    // a failed handle creation drops the new GEM object's only reference
    ensures path == HandleFailed ==> made != null && fresh(made) && made.refs == 0 && made.handleCount == 0
    // a failed insert releases the handle's references but leaves the handle in the table
    ensures path == InsertFailed ==>
      handle !in old(file.handles) && handle in file.handles &&
      file.handles == old(file.handles)[handle := file.handles[handle]] &&
      fresh(file.handles[handle]) && file.handles[handle].refs == 0 && file.handles[handle].handleCount == 0
    ensures path == Imported ==>
      ret == 0 && prime.entries == [DrmPrime.Member(dmaBuf, handle)] + old(prime.entries) &&
      handle !in old(file.handles) && handle in file.handles &&
      file.handles == old(file.handles)[handle := file.handles[handle]] &&
      var gem := file.handles[handle];
      fresh(gem) && gem.refs == 1 && gem.handleCount == 1 && gem.importAttach == attach &&
      gem.driverPrivate is NouveauBo &&
      (gem.driverPrivate as NouveauBo).validDomains == NOUVEAU_GEM_DOMAIN_GART &&
      (gem.driverPrivate as NouveauBo).sg == sg
  {
    handle, made := 0, null;
    var nvbo;
    ret, nvbo, bo := PrimeNew(dev, dmaBuf.size, sg);
    if ret != 0 {
      return ret, handle, NewFailed, bo, made;
    }
    var gem := nvbo.gem;
    made := gem;
    gem.importAttach := attach;
    ret, handle := HandleCreate(file, gem);
    ObjectUnreference(gem);
    if ret != 0 {
      return ret, handle, HandleFailed, bo, made;
    }
    ret := prime.Insert(dmaBuf, handle);
    if ret != 0 {
      // fail_handle
      HandleUnreference(gem);
      return ret, handle, InsertFailed, bo, made;
    }
    path := Imported;
  }

  /**
   * nouveau_gem_prime_fd_to_handle after a registry miss on `dmaBuf`, once `sg` maps
   * `attach`, a new attachment of it: WrapImport, and on failure fail_unmap, fail_detach and
   * fail_put.
   */
  method ImportMapped(dev: DrmDevice, file: DrmFile, prime: DrmPrime.PrimeFilePrivate, dmaBuf: DmaBuf,
                      attach: Attachment, sg: SgTable, handleIn: Handle)
    returns (ret: int, handle: Handle, ghost path: ImportPath, ghost created: Handle, ghost made: GemObject?)
    requires DrmPrime.Find(prime.entries, dmaBuf) == None
    requires attach.dmabuf == dmaBuf && attach.mapped == {sg} && attach in dmaBuf.attachments
    modifies prime`entries, file`handles, dmaBuf`refs, dmaBuf`attachments, attach`mapped
    ensures path in {NewFailed, HandleFailed, InsertFailed, Imported}
    ensures path != Imported ==>
      IsErrno(ret) && handle == handleIn && prime.entries == old(prime.entries) &&
      dmaBuf.refs == old(dmaBuf.refs) - 1 && dmaBuf.attachments == old(dmaBuf.attachments) - {attach} &&
      attach.mapped == {}
    ensures path in {NewFailed, HandleFailed} ==> file.handles == old(file.handles)
    ensures path == HandleFailed ==> made != null && fresh(made) && made.refs == 0 && made.handleCount == 0
    ensures path == InsertFailed ==>
      created !in old(file.handles) && created in file.handles &&
      file.handles == old(file.handles)[created := file.handles[created]] &&
      fresh(file.handles[created]) && file.handles[created].refs == 0 && file.handles[created].handleCount == 0
    ensures path == Imported ==>
      ret == 0 && prime.entries == [DrmPrime.Member(dmaBuf, handle)] + old(prime.entries) &&
      unchanged(dmaBuf, attach) &&
      handle !in old(file.handles) && handle in file.handles &&
      file.handles == old(file.handles)[handle := file.handles[handle]] &&
      var gem := file.handles[handle];
      fresh(gem) && gem.refs == 1 && gem.handleCount == 1 && gem.importAttach == attach &&
      gem.driverPrivate is NouveauBo &&
      (gem.driverPrivate as NouveauBo).validDomains == NOUVEAU_GEM_DOMAIN_GART
    ensures DrmPrime.Unique(old(prime.entries)) ==> DrmPrime.Unique(prime.entries)
  {
    handle := handleIn;
    var newHandle;
    ghost var bo;
    ret, newHandle, path, bo, made := WrapImport(dev, file, prime, dmaBuf, attach, sg);
    created := newHandle;
    if ret == 0 {
      if DrmPrime.Unique(old(prime.entries)) {
        DrmPrime.InsertAfterMissKeepsUnique(old(prime.entries), dmaBuf, newHandle);
      }
      return ret, newHandle, path, created, made;
    }
    // fail_unmap, fail_detach, fail_put
    DmaBufUnmapAttachment(attach, sg);
    DmaBufDetach(dmaBuf, attach);
    DmaBufPut(dmaBuf);
  }

  /**
   * nouveau_gem_prime_fd_to_handle after a registry miss on `dmaBuf`, holding the dma_buf_get
   * reference: attach, map and ImportMapped. Every failure ends by putting the buffer.
   */
  method ImportMiss(dev: DrmDevice, file: DrmFile, prime: DrmPrime.PrimeFilePrivate, dmaBuf: DmaBuf, handleIn: Handle)
    returns (ret: int, handle: Handle, ghost path: ImportPath, ghost created: Handle, ghost made: GemObject?)
    requires DrmPrime.Find(prime.entries, dmaBuf) == None
    modifies prime`entries, file`handles, dmaBuf`refs, dmaBuf`attachments
    ensures path in {AttachFailed, MapFailed, NewFailed, HandleFailed, InsertFailed, Imported}
    ensures path != Imported ==>
      IsErrno(ret) && handle == handleIn && prime.entries == old(prime.entries) &&
      dmaBuf.refs == old(dmaBuf.refs) - 1 && dmaBuf.attachments == old(dmaBuf.attachments)
    ensures path !in {InsertFailed, Imported} ==> file.handles == old(file.handles)
    ensures path == HandleFailed ==> made != null && fresh(made) && made.refs == 0 && made.handleCount == 0
    ensures path == InsertFailed ==>
      created !in old(file.handles) && created in file.handles &&
      file.handles == old(file.handles)[created := file.handles[created]] &&
      fresh(file.handles[created]) && file.handles[created].refs == 0 && file.handles[created].handleCount == 0
    ensures path == Imported ==>
      ret == 0 && prime.entries == [DrmPrime.Member(dmaBuf, handle)] + old(prime.entries) &&
      dmaBuf.refs == old(dmaBuf.refs) &&
      handle !in old(file.handles) && handle in file.handles &&
      file.handles == old(file.handles)[handle := file.handles[handle]] &&
      var gem := file.handles[handle];
      fresh(gem) && gem.refs == 1 && gem.handleCount == 1 &&
      gem.importAttach != null && fresh(gem.importAttach) && gem.importAttach.dmabuf == dmaBuf &&
      dmaBuf.attachments == old(dmaBuf.attachments) + {gem.importAttach} && |gem.importAttach.mapped| == 1 &&
      gem.driverPrivate is NouveauBo &&
      (gem.driverPrivate as NouveauBo).validDomains == NOUVEAU_GEM_DOMAIN_GART
    ensures DrmPrime.Unique(old(prime.entries)) ==> DrmPrime.Unique(prime.entries)
  {
    handle, created, made := handleIn, 0, null;
    // need to attach
    var attachPtr := DmaBufAttach(dmaBuf);
    if attachPtr.IsErr() {
      ret := attachPtr.PtrErr();
      DmaBufPut(dmaBuf);
      return ret, handle, AttachFailed, created, made;
    }
    var attach := attachPtr.target;

    var sgPtr := DmaBufMapAttachment(attach);
    if sgPtr.IsErr() {
      ret := sgPtr.PtrErr();
      DmaBufDetach(dmaBuf, attach);
      DmaBufPut(dmaBuf);
      return ret, handle, MapFailed, created, made;
    }
    var sg := sgPtr.target;
    assert attach.mapped == {sg};
    ret, handle, path, created, made := ImportMapped(dev, file, prime, dmaBuf, attach, sg, handle);
  }

  /**
   * nouveau_gem_prime_fd_to_handle. `prime` is the driver file's registry and `handleIn` what
   * *handle_p held. A registered buffer resolves to its stored handle; otherwise each
   * resource is acquired in turn and a failure releases those already held in reverse order.
   * `created` is the handle drm_gem_handle_create made, on the paths where it made one, and
   * `made` the GEM object of the new buffer object.
   */
  method FdToHandle(dev: DrmDevice, file: DrmFile, prime: DrmPrime.PrimeFilePrivate, fds: FdTable, primeFdArg: int, handleIn: Handle)
    returns (ret: int, handle: Handle, ghost path: ImportPath, ghost created: Handle, ghost made: GemObject?)
    modifies prime`entries, file`handles, BufferOf(fds, primeFdArg)`refs, BufferOf(fds, primeFdArg)`attachments
    ensures path == GetFailed <==> primeFdArg !in fds.files
    ensures path == GetFailed ==> IsErrno(ret) && unchanged(prime, file) && unchanged(BufferOf(fds, primeFdArg))
    ensures path != Imported ==> prime.entries == old(prime.entries)
    ensures path != Imported && path != Found ==> handle == handleIn
    ensures path !in {GetFailed, Found, Imported} ==> IsErrno(ret)
    ensures path !in {GetFailed, InsertFailed, Imported} ==> file.handles == old(file.handles)
    // a failed handle creation drops the new GEM object's only reference
    ensures path == HandleFailed ==> made != null && fresh(made) && made.refs == 0 && made.handleCount == 0
    // a failed insert releases the handle's references but leaves the handle in the table
    ensures path == InsertFailed ==>
      created !in old(file.handles) && created in file.handles &&
      file.handles == old(file.handles)[created := file.handles[created]] &&
      fresh(file.handles[created]) && file.handles[created].refs == 0 && file.handles[created].handleCount == 0
    // no buffer is registered twice
    ensures DrmPrime.Unique(old(prime.entries)) ==> DrmPrime.Unique(prime.entries)
    ensures path != GetFailed ==>
      var buf := fds.files[primeFdArg];
      && (path == Found <==> DrmPrime.Find(old(prime.entries), buf).Some?)
      && (path == Found ==>
            ret == 0 && handle == DrmPrime.Find(old(prime.entries), buf).value && unchanged(prime, file) && unchanged(buf))
      // every failure detaches and puts the buffer back
      && (path != Imported ==> buf.refs == old(buf.refs) && buf.attachments == old(buf.attachments))
      // success: the new object carries the attachment made for this buffer, the registry
      // maps the buffer to the new handle, and the dma_buf_get reference is kept
      && (path == Imported ==>
            ret == 0 && prime.entries == [DrmPrime.Member(buf, handle)] + old(prime.entries) &&
            buf.refs == old(buf.refs) + 1 &&
            handle !in old(file.handles) && handle in file.handles &&
            file.handles == old(file.handles)[handle := file.handles[handle]] &&
            var gem := file.handles[handle];
            fresh(gem) && gem.refs == 1 && gem.handleCount == 1 &&
            gem.importAttach != null && fresh(gem.importAttach) && gem.importAttach.dmabuf == buf &&
            buf.attachments == old(buf.attachments) + {gem.importAttach} && |gem.importAttach.mapped| == 1 &&
            gem.driverPrivate is NouveauBo &&
            (gem.driverPrivate as NouveauBo).validDomains == NOUVEAU_GEM_DOMAIN_GART)
  {
    handle, created, made := handleIn, 0, null;
    var p := DmaBufGet(fds, primeFdArg);
    if p.IsErr() {
      return p.PtrErr(), handle, GetFailed, created, made;
    }
    var dmaBuf := p.target;

    ret, handle := prime.Lookup(dmaBuf, handle);
    if ret == 0 {
      DmaBufPut(dmaBuf);
      return 0, handle, Found, created, made;
    }

    ret, handle, path, created, made := ImportMiss(dev, file, prime, dmaBuf, handle);
  }
}
