/**
 * drivers/gpu/drm/i915/i915_gem_dmabuf.c: i915's PRIME export and import. The code is kept
 * as written, including its error paths: an export failure keeps the lookup reference, a
 * failed page-array allocation returns without releasing anything, a failed handle creation
 * releases only the object, and the registry insert's result is tested the wrong way round.
 */
module I915Dmabuf {
  import opened Kernel
  import opened DmaBufs
  import opened Gem
  import DrmPrime

  /**
   * struct drm_i915_gem_object, restricted to what the PRIME code reads and writes: the
   * embedded GEM object, its page array and the imported scatter table.
   */
  class I915Object {
    const base: GemObject
    var pages: array?<Page>
    var sg: SgTable?

    /** kzalloc'd storage; `base.container` is the container_of link back to this object. */
    constructor Zeroed()
      ensures fresh(base) && base.container == this && pages == null && sg == null
      ensures base.size == 0 && base.refs == 0 && base.handleCount == 0 && base.exportDmaBuf == Null
      ensures base.importAttach == null && base.driverPrivate == null
    {
      base := new GemObject.Zeroed();
      pages, sg := null, null;
      new;
      base.container := this;
    }
  }

  /** kzalloc of a driver object: zeroed storage, or null. */
  method Kzalloc() returns (obj: I915Object?)
    ensures obj != null ==> fresh(obj) && fresh(obj.base) && obj.base.container == obj
    ensures obj != null ==> obj.pages == null && obj.sg == null
  {
    var ok: bool := *;
    if ok {
      obj := new I915Object.Zeroed();
    } else {
      obj := null;
    }
  }

  /** i915_mutex_lock_interruptible: takes struct_mutex, or is interrupted. */
  method MutexLockInterruptible() returns (ret: int)
    ensures ret == 0 || IsErrno(ret)
  {
    var ok: bool := *;
    if ok {
      ret := 0;
    } else {
      ret := SomeErrno();
    }
  }

  /** i915_gem_object_get_pages_gtt: gives the object one page per PAGE_SIZE of its size. */
  method GetPagesGtt(obj: I915Object) returns (ret: int)
    modifies obj`pages
    ensures ret == 0 || IsErrno(ret)
    ensures ret == 0 ==> obj.pages != null && fresh(obj.pages) && obj.pages.Length == obj.base.size / PAGE_SIZE
    ensures ret != 0 ==> obj.pages == old(obj.pages)
  {
    var ok: bool := *;
    if ok {
      obj.pages := new Page[obj.base.size / PAGE_SIZE];
      ret := 0;
    } else {
      ret := SomeErrno();
    }
  }

  // ---------------------------------------------------------------------------------------
  // dma_buf_ops callbacks

  /**
   * i915_gem_map_dma_buf: a scatter table over the object's pages, fetching the pages first
   * when the object has none. Returns null when the lock or the page fetch fails.
   */
  method MapDmaBuf(attachment: Attachment, obj: I915Object) returns (sg: SgTable?)
    requires attachment.dmabuf.priv == obj
    requires obj.pages != null ==> obj.base.size / PAGE_SIZE <= obj.pages.Length
    modifies obj`pages
    ensures old(obj.pages) != null ==> obj.pages == old(obj.pages)
    ensures old(obj.pages) == null ==> obj.pages == null || fresh(obj.pages)
    ensures obj.pages != null ==> obj.base.size / PAGE_SIZE <= obj.pages.Length
    ensures sg != null ==> fresh(sg) && fresh(sg.sgl)
    ensures sg != null ==> obj.pages != null && sg.live && sg.sgl.Length == obj.base.size / PAGE_SIZE
    ensures sg != null ==>
      forall i :: 0 <= i < obj.base.size / PAGE_SIZE ==> sg.sgl[i] == Segment(obj.pages[i], PAGE_SIZE, 0)
  {
    var npages := obj.base.size / PAGE_SIZE;
    var ret := MutexLockInterruptible();
    if ret != 0 {
      return null;
    }
    if obj.pages == null {
      ret := GetPagesGtt(obj);
      if ret != 0 {
        return null;
      }
    }
    sg := DrmPrime.PagesToSg(obj.pages, npages);
  }

  /** i915_gem_unmap_dma_buf: frees the table. */
  method UnmapDmaBuf(attachment: Attachment, sg: SgTable)
    modifies sg`live
    ensures !sg.live
  {
    sg.live := false;
  }

  /**
   * i915_gem_dmabuf_release: when the released buffer is the object's cached export,
   * forgets the export and its descriptor and drops the reference the export held.
   */
  method DmabufRelease(dmaBuf: DmaBuf, obj: I915Object)
    requires dmaBuf.priv == obj
    modifies obj.base`primeFd, obj.base`exportDmaBuf, obj.base`refs
    ensures old(obj.base.exportDmaBuf) == Addr(dmaBuf) ==>
      obj.base.primeFd == -1 && obj.base.exportDmaBuf == Null && obj.base.refs == old(obj.base.refs) - 1
    ensures old(obj.base.exportDmaBuf) != Addr(dmaBuf) ==> unchanged(obj.base)
  {
    if obj.base.exportDmaBuf == Addr(dmaBuf) {
      obj.base.primeFd := -1;
      obj.base.exportDmaBuf := Null;
      ObjectUnreference(obj.base);
    }
  }

  // ---------------------------------------------------------------------------------------
  // Export

  datatype ExportPath = LockFailed | NoObject | Cached | ExportFailed | Exported

  /**
   * i915_gem_prime_handle_to_fd. `primeFdIn` is what *prime_fd held before the call. An
   * object with a cached descriptor returns it; otherwise the object is exported and given a
   * descriptor, and both are cached.
   */
  method HandleToFd(dev: DrmDevice, file: DrmFile, fds: FdTable, handle: Handle, primeFdIn: int)
    returns (ret: int, primeFd: int, ghost path: ExportPath)
    requires handle in file.handles ==> file.handles[handle].container is I915Object
    modifies fds, Named(file, handle)`refs, Named(file, handle)`exportDmaBuf, Named(file, handle)`primeFd
    ensures path == LockFailed ==> IsErrno(ret) && primeFd == primeFdIn && unchanged(Named(file, handle))
    ensures path == NoObject <==> path != LockFailed && handle !in file.handles
    ensures path == NoObject ==> ret == -EBADF && primeFd == primeFdIn
    ensures path != Exported ==> unchanged(fds)
    ensures handle in file.handles ==>
      var gem := file.handles[handle];
      && (path == Cached <==> path != LockFailed && old(gem.primeFd) != -1)
      // a cached descriptor is returned, with the lookup reference dropped and no new export
      && (path == Cached ==>
            ret == 0 && primeFd == old(gem.primeFd) && unchanged(gem))
      // a failed export returns its error but KEEPS the lookup reference, and the ERR_PTR
      // stays cached in the object
      && (path == ExportFailed ==>
            gem.exportDmaBuf.ErrPtr? && ret == gem.exportDmaBuf.errno && primeFd == primeFdIn &&
            gem.refs == old(gem.refs) + 1 && gem.primeFd == -1)
      // the first export caches the new buffer and its descriptor, and keeps the reference
      && (path == Exported ==>
            ret == 0 && gem.exportDmaBuf.Addr? && fresh(gem.exportDmaBuf.target) &&
            gem.exportDmaBuf.target.priv == gem.container && gem.exportDmaBuf.target.refs == 1 &&
            primeFd == gem.primeFd && gem.refs == old(gem.refs) + 1 &&
            (primeFd >= 0 ==> fds.files == old(fds.files)[primeFd := gem.exportDmaBuf.target]) &&
            (primeFd < 0 ==> fds.files == old(fds.files)))
  {
    primeFd := primeFdIn;
    ret := MutexLockInterruptible();
    if ret != 0 {
      return ret, primeFd, LockFailed;
    }

    var gem := ObjectLookup(file, handle);
    if gem == null {
      return -EBADF, primeFd, NoObject;
    }
    var obj := gem.container as I915Object;

    if gem.primeFd != -1 {
      // drop the lookup reference: the descriptor already holds one
      ObjectUnreference(gem);
      primeFd := gem.primeFd;
      return ret, primeFd, Cached;
    }

    gem.exportDmaBuf := DmaBufExport(obj, gem.size);
    if gem.exportDmaBuf.IsErr() {
      // the lookup reference is not dropped on this path
      ret := gem.exportDmaBuf.PtrErr();
      return ret, primeFd, ExportFailed;
    }
    gem.primeFd := DmaBufFd(fds, gem.exportDmaBuf);
    // the lookup reference stays with the descriptor
    primeFd := gem.primeFd;
    return ret, primeFd, Exported;
  }

  // ---------------------------------------------------------------------------------------
  // Import

  datatype ImportPath =
    | GetFailed | Found | AttachFailed | MapFailed | ObjectFailed | PagesFailed
    | HandleFailed | InsertSucceeded | InsertFailed

  /** drm_malloc_ab for the page array: `n` pages, or null. */
  method MallocPages(n: nat) returns (pages: array?<Page>)
    ensures pages != null ==> fresh(pages) && pages.Length == n
  {
    var ok: bool := *;
    if ok {
      pages := new Page[n];
    } else {
      pages := null;
    }
  }

  /** The for_each_sg loop: page i of the object is the page of table entry i. */
  method CopyPages(pages: array<Page>, sg: SgTable, npages: nat)
    requires npages <= pages.Length && npages <= sg.sgl.Length
    modifies pages
    ensures forall i :: 0 <= i < npages ==> pages[i] == sg.sgl[i].page
  {
    var i := 0;
    while i < npages
      invariant 0 <= i <= npages
      invariant forall k :: 0 <= k < i ==> pages[k] == sg.sgl[k].page
    {
      pages[i] := sg.sgl[i].page;
      i := i + 1;
    }
  }

  /**
   * kzalloc of the driver object followed by drm_gem_private_object_init: an initialised
   * object of `size` bytes, or null (the storage freed again when initialisation fails).
   */
  method CreateObject(size: nat) returns (obj: I915Object?)
    ensures obj != null ==>
      fresh(obj) && fresh(obj.base) && obj.base.container == obj && Initialised(obj.base, size) &&
      obj.pages == null && obj.sg == null
  {
    obj := Kzalloc();
    if obj == null {
      return;
    }
    var ret := PrivateObjectInit(obj.base, size);
    if ret != 0 {
      // kfree(obj)
      obj := null;
    }
  }

  /**
   * The tail of i915_gem_prime_fd_to_handle, from the page array on: `obj` is the new
   * initialised object and `sg` maps `attach`. The page-array and handle failures return
   * with the buffer reference, the attachment and the mapping still held; after the handle
   * exists, the insert's result is tested the wrong way round.
   */
  method ImportObject(file: DrmFile, prime: DrmPrime.PrimeFilePrivate, dmaBuf: DmaBuf, attach: Attachment,
                      sg: SgTable, obj: I915Object, handleIn: Handle) returns (ret: int, handle: Handle, ghost path: ImportPath)
    requires attach.dmabuf == dmaBuf && attach.mapped == {sg}
    requires sg.sgl.Length == dmaBuf.size / PAGE_SIZE
    modifies prime`entries, file`handles, dmaBuf`refs, dmaBuf`attachments, attach`mapped
    modifies obj`pages, obj`sg, obj.base`importAttach, obj.base`refs, obj.base`handleCount
    ensures path in {PagesFailed, HandleFailed, InsertSucceeded, InsertFailed}
    ensures path in {PagesFailed, HandleFailed} ==>
      IsErrno(ret) && handle == handleIn && file.handles == old(file.handles) && prime.entries == old(prime.entries) &&
      unchanged(dmaBuf, attach)
    ensures path == PagesFailed ==> ret == -ENOMEM
    ensures path != PagesFailed ==>
      obj.sg == sg && obj.base.importAttach == attach && obj.pages != null && fresh(obj.pages) &&
      obj.pages.Length == dmaBuf.size / PAGE_SIZE &&
      (forall i :: 0 <= i < dmaBuf.size / PAGE_SIZE ==> obj.pages[i] == sg.sgl[i].page)
    ensures path in {InsertSucceeded, InsertFailed} ==>
      ret == 0 && handle !in old(file.handles) && file.handles == old(file.handles)[handle := obj.base]
    ensures path == InsertSucceeded ==>
      prime.entries == [DrmPrime.Member(dmaBuf, handle)] + old(prime.entries) &&
      dmaBuf.refs == old(dmaBuf.refs) - 1 && dmaBuf.attachments == old(dmaBuf.attachments) - {attach} &&
      attach.mapped == {} && obj.base.refs == old(obj.base.refs) && obj.base.handleCount == old(obj.base.handleCount)
    ensures path == InsertFailed ==>
      prime.entries == old(prime.entries) && unchanged(dmaBuf, attach) &&
      obj.base.refs == old(obj.base.refs) && obj.base.handleCount == old(obj.base.handleCount) + 1
  {
    handle := handleIn;
    var npages := dmaBuf.size / PAGE_SIZE;
    var pages := MallocPages(npages);
    obj.pages := pages;
    if pages == null {
      // returns without unmapping, detaching or putting the buffer
      return -ENOMEM, handle, PagesFailed;
    }
    CopyPages(pages, sg, npages);

    obj.base.importAttach := attach;
    obj.sg := sg;
    var newHandle;
    ret, newHandle := HandleCreate(file, obj.base);
    if ret != 0 {
      // drm_gem_object_release and kfree only: the mapping, the attachment and the buffer
      // reference stay
      return ret, handle, HandleFailed;
    }
    handle := newHandle;

    ret := prime.Insert(dmaBuf, handle);
    if ret != 0 {
      // drop the allocation reference: the handle holds it now
      ObjectUnreference(obj.base);
      return 0, handle, InsertFailed;
    }
    // fail_handle
    HandleUnreference(obj.base);
    DmaBufUnmapAttachment(attach, sg);
    DmaBufDetach(dmaBuf, attach);
    DmaBufPut(dmaBuf);
    path := InsertSucceeded;
  }

  /**
   * i915_gem_prime_fd_to_handle once `sg` maps `attach`, a new attachment of `dmaBuf`: a
   * failure to create the object unmaps, detaches and puts the buffer; the rest is
   * ImportObject's.
   */
  method ImportAttached(file: DrmFile, prime: DrmPrime.PrimeFilePrivate, dmaBuf: DmaBuf, attach: Attachment,
                        sg: SgTable, handleIn: Handle) returns (ret: int, handle: Handle, ghost path: ImportPath)
    requires attach.dmabuf == dmaBuf && attach.mapped == {sg} && attach in dmaBuf.attachments
    requires sg.sgl.Length == dmaBuf.size / PAGE_SIZE
    modifies prime`entries, file`handles, dmaBuf`refs, dmaBuf`attachments, attach`mapped
    ensures path in {ObjectFailed, PagesFailed, HandleFailed, InsertSucceeded, InsertFailed}
    ensures path !in {InsertSucceeded, InsertFailed} ==>
      IsErrno(ret) && handle == handleIn && file.handles == old(file.handles) && prime.entries == old(prime.entries)
    ensures path in {ObjectFailed, PagesFailed} ==> ret == -ENOMEM
    ensures path in {ObjectFailed, InsertSucceeded} ==>
      dmaBuf.refs == old(dmaBuf.refs) - 1 && dmaBuf.attachments == old(dmaBuf.attachments) - {attach} &&
      attach.mapped == {}
    ensures path in {PagesFailed, HandleFailed, InsertFailed} ==> unchanged(dmaBuf, attach)
    ensures path in {InsertSucceeded, InsertFailed} ==>
      ret == 0 && handle !in old(file.handles) && handle in file.handles &&
      file.handles == old(file.handles)[handle := file.handles[handle]] &&
      fresh(file.handles[handle]) && file.handles[handle].importAttach == attach && file.handles[handle].refs == 1
    ensures path == InsertSucceeded ==>
      prime.entries == [DrmPrime.Member(dmaBuf, handle)] + old(prime.entries) && file.handles[handle].handleCount == 0
    ensures path == InsertFailed ==>
      prime.entries == old(prime.entries) && file.handles[handle].handleCount == 1
  {
    handle := handleIn;
    var obj := CreateObject(dmaBuf.size);
    if obj == null {
      DmaBufUnmapAttachment(attach, sg);
      DmaBufDetach(dmaBuf, attach);
      DmaBufPut(dmaBuf);
      return -ENOMEM, handle, ObjectFailed;
    }
    ret, handle, path := ImportObject(file, prime, dmaBuf, attach, sg, obj, handle);
  }

  /**
   * i915_gem_prime_import after a registry miss on `dmaBuf`, holding the dma_buf_get
   * reference: attach, map and ImportAttached. `attach` is the attachment made here.
   */
  method ImportMiss(file: DrmFile, prime: DrmPrime.PrimeFilePrivate, dmaBuf: DmaBuf, handleIn: Handle)
    returns (ret: int, handle: Handle, ghost path: ImportPath, ghost attach: Attachment?)
    requires DrmPrime.Find(prime.entries, dmaBuf) == None
    modifies prime`entries, file`handles, dmaBuf`refs, dmaBuf`attachments
    ensures path in {AttachFailed, MapFailed, ObjectFailed, PagesFailed, HandleFailed, InsertSucceeded, InsertFailed}
    ensures path != InsertSucceeded ==> prime.entries == old(prime.entries)
    ensures path !in {InsertSucceeded, InsertFailed} ==> handle == handleIn && IsErrno(ret) && file.handles == old(file.handles)
    ensures path in {ObjectFailed, PagesFailed} ==> ret == -ENOMEM
    ensures path in {AttachFailed, MapFailed, ObjectFailed} ==>
      dmaBuf.refs == old(dmaBuf.refs) - 1 && dmaBuf.attachments == old(dmaBuf.attachments)
    ensures path !in {AttachFailed, MapFailed, ObjectFailed} ==>
      attach != null && fresh(attach) && attach.dmabuf == dmaBuf
    ensures path in {PagesFailed, HandleFailed} ==>
      dmaBuf.refs == old(dmaBuf.refs) && dmaBuf.attachments == old(dmaBuf.attachments) + {attach} &&
      |attach.mapped| == 1
    ensures path == InsertSucceeded ==>
      ret == 0 && prime.entries == [DrmPrime.Member(dmaBuf, handle)] + old(prime.entries) &&
      handle !in old(file.handles) && handle in file.handles &&
      file.handles == old(file.handles)[handle := file.handles[handle]] &&
      dmaBuf.refs == old(dmaBuf.refs) - 1 && dmaBuf.attachments == old(dmaBuf.attachments) &&
      file.handles[handle].importAttach == attach && attach.mapped == {} &&
      file.handles[handle].refs == 1 && file.handles[handle].handleCount == 0
    ensures path == InsertFailed ==>
      ret == 0 &&
      handle !in old(file.handles) && handle in file.handles &&
      file.handles == old(file.handles)[handle := file.handles[handle]] &&
      dmaBuf.refs == old(dmaBuf.refs) && dmaBuf.attachments == old(dmaBuf.attachments) + {attach} &&
      file.handles[handle].importAttach == attach && |attach.mapped| == 1 &&
      fresh(file.handles[handle]) && file.handles[handle].refs == 1 && file.handles[handle].handleCount == 1
    ensures DrmPrime.Unique(old(prime.entries)) ==> DrmPrime.Unique(prime.entries)
  {
    handle := handleIn;
    attach := null;
    // need to attach
    var attachPtr := DmaBufAttach(dmaBuf);
    if attachPtr.IsErr() {
      ret := attachPtr.PtrErr();
      DmaBufPut(dmaBuf);
      return ret, handle, AttachFailed, attach;
    }
    var a := attachPtr.target;
    attach := a;

    var sgPtr := DmaBufMapAttachment(a);
    if sgPtr.IsErr() {
      ret := sgPtr.PtrErr();
      DmaBufDetach(dmaBuf, a);
      DmaBufPut(dmaBuf);
      return ret, handle, MapFailed, attach;
    }
    var sg := sgPtr.target;
    assert a.mapped == {sg};

    ret, handle, path := ImportAttached(file, prime, dmaBuf, a, sg, handle);
    if path == InsertSucceeded && DrmPrime.Unique(old(prime.entries)) {
      DrmPrime.InsertAfterMissKeepsUnique(old(prime.entries), dmaBuf, handle);
    }
  }

  /**
   * i915_gem_prime_fd_to_handle, as written. `prime` is the driver file's registry and
   * `handleIn` what *handle held. `attach` is the attachment the call made, if it got that
   * far. Up to the object's creation a failure releases what is held in reverse order; after
   * it the paths below leak or release as the code does.
   */
  method FdToHandle(dev: DrmDevice, file: DrmFile, prime: DrmPrime.PrimeFilePrivate, fds: FdTable, primeFdArg: int, handleIn: Handle)
    returns (ret: int, handle: Handle, ghost path: ImportPath, ghost attach: Attachment?)
    modifies prime`entries, file`handles, BufferOf(fds, primeFdArg)`refs, BufferOf(fds, primeFdArg)`attachments
    ensures path == GetFailed <==> primeFdArg !in fds.files
    ensures path == GetFailed ==> IsErrno(ret) && unchanged(prime, file) && unchanged(BufferOf(fds, primeFdArg))
    ensures path != InsertSucceeded ==> prime.entries == old(prime.entries)
    ensures path !in {Found, InsertSucceeded, InsertFailed} ==> handle == handleIn
    ensures path !in {GetFailed, Found, InsertSucceeded, InsertFailed} ==> IsErrno(ret)
    ensures path in {ObjectFailed, PagesFailed} ==> ret == -ENOMEM
    ensures path !in {InsertSucceeded, InsertFailed} ==> file.handles == old(file.handles)
    ensures path != GetFailed ==>
      var buf := fds.files[primeFdArg];
      && (path == Found <==> DrmPrime.Find(old(prime.entries), buf).Some?)
      && (path == Found ==>
            ret == 0 && handle == DrmPrime.Find(old(prime.entries), buf).value && unchanged(prime, file) && unchanged(buf))
      // the failures before the object exists put the buffer back and detach
      && (path in {AttachFailed, MapFailed, ObjectFailed} ==>
            buf.refs == old(buf.refs) && buf.attachments == old(buf.attachments))
      // from here on the attachment made by this call is the one the object would carry
      && (path !in {Found, AttachFailed, MapFailed, ObjectFailed} ==>
            attach != null && fresh(attach) && attach.dmabuf == buf)
      // a failed page array or handle: the buffer reference, the attachment and its
      // mapping are all kept, though the call fails
      && (path in {PagesFailed, HandleFailed} ==>
            buf.refs == old(buf.refs) + 1 && buf.attachments == old(buf.attachments) + {attach} &&
            |attach.mapped| == 1)
      // the insert succeeded, so the inverted test takes the failure path: the call
      // reports success and the registry names the buffer, but the buffer reference is
      // dropped and the new object's attachment is unmapped and detached
      && (path == InsertSucceeded ==>
            ret == 0 && prime.entries == [DrmPrime.Member(buf, handle)] + old(prime.entries) &&
            handle !in old(file.handles) && handle in file.handles &&
            file.handles == old(file.handles)[handle := file.handles[handle]] &&
            buf.refs == old(buf.refs) && buf.attachments == old(buf.attachments) &&
            file.handles[handle].importAttach == attach && attach.mapped == {} &&
            file.handles[handle].refs == 1 && file.handles[handle].handleCount == 0)
      // the insert failed, so the inverted test takes the success path: the call reports
      // success with a live handle but the buffer is not registered
      && (path == InsertFailed ==>
            ret == 0 && prime.entries == old(prime.entries) &&
            handle !in old(file.handles) && handle in file.handles &&
            file.handles == old(file.handles)[handle := file.handles[handle]] &&
            buf.refs == old(buf.refs) + 1 && buf.attachments == old(buf.attachments) + {attach} &&
            file.handles[handle].importAttach == attach && |attach.mapped| == 1 &&
            fresh(file.handles[handle]) && file.handles[handle].refs == 1 && file.handles[handle].handleCount == 1)
    // no buffer is registered twice, whichever way the insert went
    ensures DrmPrime.Unique(old(prime.entries)) ==> DrmPrime.Unique(prime.entries)
  {
    handle := handleIn;
    attach := null;
    var p := DmaBufGet(fds, primeFdArg);
    if p.IsErr() {
      return p.PtrErr(), handle, GetFailed, attach;
    }
    var dmaBuf := p.target;

    ret, handle := prime.Lookup(dmaBuf, handle);
    if ret == 0 {
      // drop the reference taken above
      DmaBufPut(dmaBuf);
      return 0, handle, Found, attach;
    }

    ret, handle, path, attach := ImportMiss(file, prime, dmaBuf, handle);
  }
}
