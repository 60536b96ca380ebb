/**
 * drivers/gpu/drm/drm_prime.c: the per-file registry of imported dma-bufs, the generic
 * handle-to-fd (export) and fd-to-handle (import) ioctls, the scatter-table builder and the
 * teardown helper for imported objects.
 */
module DrmPrime {
  import opened Kernel
  import opened DmaBufs
  import opened Gem

  // ---------------------------------------------------------------------------------------
  // The registry, as a value

  /** struct drm_prime_member: an imported buffer and the handle it was imported as. */
  datatype Member = Member(dmaBuf: DmaBuf, handle: Handle)

  /** The handle of the first member, from the head of the list, whose buffer is `buf`. */
  function Find(entries: seq<Member>, buf: DmaBuf): (r: Option<Handle>)
    ensures r.None? <==> forall i :: 0 <= i < |entries| ==> entries[i].dmaBuf != buf
    ensures r.Some? ==> Member(buf, r.value) in entries
  {
    if entries == [] then None
    else if entries[0].dmaBuf == buf then Some(entries[0].handle)
    else Find(entries[1..], buf)
  }

  /** Find answers with the earliest member naming the buffer: the most recent insert. */
  lemma {:induction false} FindIsFirstMatch(entries: seq<Member>, buf: DmaBuf, i: nat)
    requires i < |entries| && entries[i].dmaBuf == buf
    requires forall j :: 0 <= j < i ==> entries[j].dmaBuf != buf
    ensures Find(entries, buf) == Some(entries[i].handle)
  {
    if i > 0 {
      FindIsFirstMatch(entries[1..], buf, i - 1);
    }
  }

  /** The members that do not name `buf`, in their order. */
  function Without(entries: seq<Member>, buf: DmaBuf): (r: seq<Member>)
    ensures forall i :: 0 <= i < |r| ==> r[i] in entries && r[i].dmaBuf != buf
    ensures forall i :: 0 <= i < |entries| && entries[i].dmaBuf != buf ==> entries[i] in r
    ensures |r| <= |entries|
  {
    if entries == [] then []
    else if entries[0].dmaBuf == buf then Without(entries[1..], buf)
    else [entries[0]] + Without(entries[1..], buf)
  }

  /** Removing distributes over concatenation: the members kept stay in their order. */
  lemma {:induction false} WithoutAppend(a: seq<Member>, b: seq<Member>, buf: DmaBuf)
    ensures Without(a + b, buf) == Without(a, buf) + Without(b, buf)
  {
    if a == [] {
      assert a + b == b;
    } else {
      assert (a + b)[0] == a[0] && (a + b)[1..] == a[1..] + b;
      WithoutAppend(a[1..], b, buf);
    }
  }

  /** One step of the removal loop: the next member is dropped or kept. */
  lemma WithoutStep(all: seq<Member>, k: nat, buf: DmaBuf)
    requires k < |all|
    ensures Without(all[..k + 1], buf) == Without(all[..k], buf) + (if all[k].dmaBuf == buf then [] else [all[k]])
  {
    assert all[..k + 1] == all[..k] + [all[k]];
    WithoutAppend(all[..k], [all[k]], buf);
  }

  /** The removal loop's step, on a list whose first k members have been processed. */
  lemma RemovalStep(all: seq<Member>, k: nat, buf: DmaBuf, entries: seq<Member>, i: nat)
    requires k < |all| && i == |Without(all[..k], buf)|
    requires entries == Without(all[..k], buf) + all[k..]
    ensures i < |entries| && entries[i] == all[k]
    ensures all[k].dmaBuf == buf ==>
      i == |Without(all[..k + 1], buf)| && entries[..i] + entries[i + 1..] == Without(all[..k + 1], buf) + all[k + 1..]
    ensures all[k].dmaBuf != buf ==>
      i + 1 == |Without(all[..k + 1], buf)| && entries == Without(all[..k + 1], buf) + all[k + 1..]
  {
    var kept := Without(all[..k], buf);
    WithoutStep(all, k, buf);
    if all[k].dmaBuf == buf {
      assert entries[..i] == kept && entries[i + 1..] == all[k + 1..];
    } else {
      assert entries == (kept + [all[k]]) + all[k + 1..];
    }
  }

  /** The removal loop's exit: every member has been processed. */
  lemma RemovalDone(all: seq<Member>, k: nat, buf: DmaBuf, entries: seq<Member>, i: nat)
    requires k <= |all| && i == |Without(all[..k], buf)| && i >= |entries|
    requires entries == Without(all[..k], buf) + all[k..]
    ensures entries == Without(all, buf) && Find(entries, buf) == None
    ensures Unique(all) ==> Unique(entries)
  {
    assert all[..k] == all;
    FindWithout(all, buf, buf);
    WithoutKeepsUnique(all, buf);
  }

  /** Removing a buffer that is not registered leaves the list as it is. */
  lemma {:induction false} WithoutAbsent(entries: seq<Member>, buf: DmaBuf)
    requires Find(entries, buf) == None
    ensures Without(entries, buf) == entries
  {
    if entries != [] {
      WithoutAbsent(entries[1..], buf);
    }
  }

  /** After removing `buf`, lookups of `buf` miss and lookups of every other buffer are as before. */
  lemma {:induction false} FindWithout(entries: seq<Member>, buf: DmaBuf, other: DmaBuf)
    ensures Find(Without(entries, buf), other) == if other == buf then None else Find(entries, other)
  {
    if entries != [] && other != buf {
      FindWithout(entries[1..], buf, other);
    }
  }

  /** The protocol invariant: at most one member per buffer. */
  predicate Unique(entries: seq<Member>) {
    forall i, j :: 0 <= i < j < |entries| ==> entries[i].dmaBuf != entries[j].dmaBuf
  }

  /** Removing a buffer, as close and export teardown do, keeps the registry free of duplicates. */
  lemma {:induction false} WithoutKeepsUnique(entries: seq<Member>, buf: DmaBuf)
    ensures Unique(entries) ==> Unique(Without(entries, buf))
  {
    if entries != [] && Unique(entries) {
      var rest := entries[1..];
      assert Unique(rest) by {
        forall i, j | 0 <= i < j < |rest| ensures rest[i].dmaBuf != rest[j].dmaBuf {
          assert rest[i] == entries[i + 1] && rest[j] == entries[j + 1];
        }
      }
      WithoutKeepsUnique(rest, buf);
      if entries[0].dmaBuf != buf {
        var kept := Without(rest, buf);
        var r := [entries[0]] + kept;
        forall i, j | 0 <= i < j < |r| ensures r[i].dmaBuf != r[j].dmaBuf {
          if i == 0 {
            assert r[j] == kept[j - 1] && kept[j - 1] in rest;
          } else {
            assert r[i] == kept[i - 1] && r[j] == kept[j - 1];
          }
        }
      }
    }
  }

  /** In a registry without duplicates every member is what a lookup of its buffer returns. */
  lemma UniqueFindsEvery(entries: seq<Member>, i: nat)
    requires Unique(entries) && i < |entries|
    ensures Find(entries, entries[i].dmaBuf) == Some(entries[i].handle)
  {
    FindIsFirstMatch(entries, entries[i].dmaBuf, i);
  }

  /** Inserting after a missed lookup, as import does, keeps the registry free of duplicates. */
  lemma InsertAfterMissKeepsUnique(entries: seq<Member>, buf: DmaBuf, handle: Handle)
    requires Unique(entries) && Find(entries, buf) == None
    ensures Unique([Member(buf, handle)] + entries)
  {
    var e := [Member(buf, handle)] + entries;
    forall i, j | 0 <= i < j < |e| ensures e[i].dmaBuf != e[j].dmaBuf {
      if i == 0 {
        assert e[j] == entries[j - 1];
      }
    }
  }

  // ---------------------------------------------------------------------------------------
  // The registry, in place

  /**
   * struct drm_prime_file_private: the list of members of one open file, most recently
   * inserted first (list_add inserts at the head).
   */
  class PrimeFilePrivate {
    var entries: seq<Member>

    /** drm_prime_init_file_private: an empty list. */
    method Init()
      modifies this`entries
      ensures entries == []
      ensures forall buf: DmaBuf :: Find(entries, buf) == None
    {
      entries := [];
    }

    /** drm_prime_destroy_file_private: deletes and frees every member. */
    method Destroy()
      modifies this`entries
      ensures entries == []
      ensures forall buf: DmaBuf :: Find(entries, buf) == None
    {
      ghost var all := entries;
      var i := 0;
      while entries != []
        invariant 0 <= i <= |all| && entries == all[i..]
        decreases |entries|
      {
        entries := entries[1..];
        i := i + 1;
      }
    }

    /** drm_prime_insert_fd_handle_mapping: a new member at the head, unless kmalloc fails. */
    method Insert(buf: DmaBuf, handle: Handle) returns (ret: int)
      modifies this`entries
      ensures ret == 0 || ret == -ENOMEM
      ensures ret == 0 ==> entries == [Member(buf, handle)] + old(entries)
      ensures ret == 0 ==> Find(entries, buf) == Some(handle)
      ensures ret != 0 ==> entries == old(entries)
    {
      var memberAllocated: bool := *;
      if !memberAllocated {
        return -ENOMEM;
      }
      entries := [Member(buf, handle)] + entries;
      return 0;
    }

    /**
     * drm_prime_lookup_fd_handle_mapping: scans from the head for the first member naming
     * `buf`; `handleIn` is what *handle held, which a miss leaves as it was.
     */
    method Lookup(buf: DmaBuf, handleIn: Handle) returns (ret: int, handle: Handle)
      ensures Find(entries, buf).Some? ==> ret == 0 && handle == Find(entries, buf).value
      ensures Find(entries, buf).None? ==> ret == -ENOENT && handle == handleIn
    {
      handle := handleIn;
      var i := 0;
      while i < |entries|
        invariant 0 <= i <= |entries|
        invariant Find(entries, buf) == Find(entries[i..], buf)
      {
        if entries[i].dmaBuf == buf {
          handle := entries[i].handle;
          return 0, handle;
        }
        assert entries[i..][1..] == entries[i + 1..];
        i := i + 1;
      }
      return -ENOENT, handle;
    }

    /** drm_prime_remove_fd_handle_mapping: deletes every member naming `buf`. */
    method Remove(buf: DmaBuf)
      modifies this`entries
      ensures entries == Without(old(entries), buf)
      ensures Find(entries, buf) == None
      ensures Unique(old(entries)) ==> Unique(entries)
    {
      ghost var all := entries;
      var i := 0;
      ghost var k := 0;
      while i < |entries|
        invariant 0 <= k <= |all| && i == |Without(all[..k], buf)|
        invariant |entries| == i + (|all| - k)
        invariant entries == Without(all[..k], buf) + all[k..]
        decreases |all| - k
      {
        RemovalStep(all, k, buf, entries, i);
        if entries[i].dmaBuf == buf {
          entries := entries[..i] + entries[i + 1..];
        } else {
          i := i + 1;
        }
        k := k + 1;
      }
      RemovalDone(all, k, buf, entries, i);
    }
  }

  // ---------------------------------------------------------------------------------------
  // Export

  /**
   * drm_prime_handle_to_fd_ioctl. `fdIn` is what args->fd held before the call. The first
   * export of an object calls the driver's prime_export and caches what it returns in
   * export_dma_buf, failed results included; every later export reuses the cached value.
   */
  method HandleToFdIoctl(dev: DrmDevice, file: DrmFile, fds: FdTable, handle: Handle, flags: int, fdIn: int)
    returns (ret: int, fd: int)
    modifies dev`exportCalls, fds, Named(file, handle)`refs, Named(file, handle)`exportDmaBuf
    ensures !dev.primeFeature ==> ret == -EINVAL
    ensures dev.primeFeature && !dev.hasPrimeExport ==> ret == -ENOSYS
    ensures dev.primeFeature && dev.hasPrimeExport && handle !in file.handles ==> ret == -ENOENT
    ensures !dev.primeFeature || !dev.hasPrimeExport || handle !in file.handles ==>
      fd == fdIn && unchanged(dev, fds) && unchanged(Named(file, handle))
    ensures dev.primeFeature && dev.hasPrimeExport && handle in file.handles ==>
      var obj := file.handles[handle];
      // a cached export is reused and prime_export is not called again
      && (old(obj.exportDmaBuf) != Null ==>
            ret == 0 && obj.exportDmaBuf == old(obj.exportDmaBuf) && dev.exportCalls == old(dev.exportCalls))
      // the first export calls prime_export once and stores its result
      && (old(obj.exportDmaBuf) == Null ==> dev.exportCalls == old(dev.exportCalls) + 1)
      && (old(obj.exportDmaBuf) == Null && obj.exportDmaBuf.Addr? ==>
            ret == 0 && fresh(obj.exportDmaBuf.target) && obj.exportDmaBuf.target.refs == 1)
      // a failed first export drops the lookup reference and returns PTR_ERR of the result,
      // which is 0 for NULL; the failed result stays cached
      && (old(obj.exportDmaBuf) == Null && !obj.exportDmaBuf.Addr? ==>
            ret == obj.exportDmaBuf.PtrErr() && obj.refs == old(obj.refs) && fd == fdIn && fds.files == old(fds.files))
      && (obj.exportDmaBuf.ErrPtr? ==> ret < 0 || (old(obj.exportDmaBuf) == obj.exportDmaBuf && fd < 0))
      // every call that returns 0 with a buffer keeps the lookup reference
      && (obj.exportDmaBuf.Addr? ==> ret == 0 && obj.refs == old(obj.refs) + 1)
      // args->fd is a new descriptor for the cached buffer, or the error dma_buf_fd returned
      && (obj.exportDmaBuf.Addr? && fd >= 0 ==>
            fd !in old(fds.files) && fds.files == old(fds.files)[fd := obj.exportDmaBuf.target])
      && (fd < 0 ==> fds.files == old(fds.files))
      // a stale ERR_PTR left by an earlier failure is handed to dma_buf_fd: 0 and a negative fd
      && (old(obj.exportDmaBuf).ErrPtr? ==> ret == 0 && fd < 0 && obj.refs == old(obj.refs) + 1)
  {
    fd := fdIn;
    if !dev.primeFeature {
      return -EINVAL, fd;
    }
    if !dev.hasPrimeExport {
      return -ENOSYS, fd;
    }
    var obj := ObjectLookup(file, handle);
    if obj == null {
      return -ENOENT, fd;
    }
    if obj.exportDmaBuf != Null {
      // the flags of a repeated export are not looked at
    } else {
      obj.exportDmaBuf := PrimeExport(dev, obj, flags);
      if obj.exportDmaBuf.IsErrOrNull() {
        ObjectUnreference(obj);
        return obj.exportDmaBuf.PtrErr(), fd;
      }
    }
    fd := DmaBufFd(fds, obj.exportDmaBuf);
    return 0, fd;
  }

  // ---------------------------------------------------------------------------------------
  // Import

  /** Where drm_prime_fd_to_handle_ioctl left off. */
  datatype ImportPath =
    | Rejected      // no DRIVER_PRIME, or no prime_import
    | GetFailed     // dma_buf_get failed
    | Found         // the registry already maps the buffer
    | ImportFailed  // prime_import returned an ERR_PTR
    | ImportNull    // prime_import returned NULL: PTR_ERR(NULL) is 0, so the call reports success
    | HandleFailed  // drm_gem_handle_create failed
    | InsertFailed  // the registry insert failed
    | Imported

  /**
   * drm_prime_fd_to_handle_ioctl after a registry miss on `buf`, holding the dma_buf_get
   * reference: prime_import, handle creation and registration. Every failure ends by
   * putting the buffer.
   */
  method ImportMiss(dev: DrmDevice, file: DrmFile, prime: PrimeFilePrivate, buf: DmaBuf, handleIn: Handle)
    returns (ret: int, handle: Handle, ghost path: ImportPath, ghost created: Handle, ghost made: GemObject?)
    requires dev.hasPrimeImport && Find(prime.entries, buf) == None
    modifies dev`importCalls, prime`entries, file`handles, buf`refs
    ensures path in {ImportFailed, ImportNull, HandleFailed, InsertFailed, Imported}
    ensures dev.importCalls == old(dev.importCalls) + 1
    ensures path != Imported ==>
      handle == handleIn && prime.entries == old(prime.entries) && buf.refs == old(buf.refs) - 1
    ensures path == ImportFailed ==> IsErrno(ret) && file.handles == old(file.handles)
    ensures path == ImportNull ==> ret == 0 && file.handles == old(file.handles)
    ensures path == HandleFailed ==> IsErrno(ret) && file.handles == old(file.handles)
    // the object prime_import returned loses its only reference
    ensures path == HandleFailed ==> made != null && fresh(made) && made.refs == 0 && made.handleCount == 0
    ensures path == InsertFailed ==>
      ret == -ENOMEM && created !in old(file.handles) && created in file.handles &&
      file.handles == old(file.handles)[created := file.handles[created]] &&
      fresh(file.handles[created]) && file.handles[created].refs == 0 && file.handles[created].handleCount == 0
    ensures path == Imported ==>
      ret == 0 && prime.entries == [Member(buf, handle)] + old(prime.entries) &&
      buf.refs == old(buf.refs) && handle !in old(file.handles) && handle in file.handles &&
      file.handles == old(file.handles)[handle := file.handles[handle]] &&
      fresh(file.handles[handle]) && file.handles[handle].refs == 1 && file.handles[handle].handleCount == 1
    ensures Unique(old(prime.entries)) ==> Unique(prime.entries)
  {
    handle, created, made := handleIn, 0, null;
    var imported := PrimeImport(dev, buf);
    if imported.IsErrOrNull() {
      ret := imported.PtrErr();
      path := if imported.Null? then ImportNull else ImportFailed;
    } else {
      var obj := imported.target;
      made := obj;
      var newHandle;
      ret, newHandle := HandleCreate(file, obj);
      ObjectUnreference(obj);
      if ret != 0 {
        path := HandleFailed;
      } else {
        created := newHandle;
        ret := prime.Insert(buf, newHandle);
        if ret == 0 {
          if Unique(old(prime.entries)) {
            InsertAfterMissKeepsUnique(old(prime.entries), buf, newHandle);
          }
          return 0, newHandle, Imported, created, made;
        }
        HandleUnreference(obj);
        path := InsertFailed;
      }
    }
    DmaBufPut(buf);
  }

  /**
   * drm_prime_fd_to_handle_ioctl. `prime` is file_priv->prime and `handleIn` what
   * args->handle held before the call. A buffer already in the registry resolves to its
   * stored handle without calling the driver; otherwise prime_import runs once and, on
   * success, the new handle is registered. `created` is the handle drm_gem_handle_create
   * made, on the paths where it made one, and `made` the object prime_import returned.
   */
  method FdToHandleIoctl(dev: DrmDevice, file: DrmFile, prime: PrimeFilePrivate, fds: FdTable, fdArg: int, handleIn: Handle)
    returns (ret: int, handle: Handle, ghost path: ImportPath, ghost created: Handle, ghost made: GemObject?)
    modifies dev`importCalls, prime`entries, file`handles, BufferOf(fds, fdArg)`refs
    ensures path == Rejected <==> !dev.primeFeature || !dev.hasPrimeImport
    ensures !dev.primeFeature ==> ret == -EINVAL
    ensures dev.primeFeature && !dev.hasPrimeImport ==> ret == -ENOSYS
    ensures path == GetFailed <==> path != Rejected && fdArg !in fds.files
    ensures path == GetFailed ==> IsErrno(ret)
    ensures path in {Rejected, GetFailed} ==> unchanged(dev, prime, file) && unchanged(BufferOf(fds, fdArg))
    ensures path != Imported && path != Found ==> handle == handleIn && prime.entries == old(prime.entries)
    ensures path !in {Rejected, GetFailed} ==>
      var buf := fds.files[fdArg];
      // a registry hit: the stored handle, the dma_buf_get reference dropped, no import
      && (path == Found <==> Find(old(prime.entries), buf).Some?)
      && (path == Found ==>
            ret == 0 && handle == Find(old(prime.entries), buf).value && buf.refs == old(buf.refs) &&
            unchanged(dev, prime, file))
      // a miss: prime_import runs exactly once
      && (path != Found ==> dev.importCalls == old(dev.importCalls) + 1)
      // every failure puts the buffer back and leaves the registry as it was
      && (path != Found && path != Imported ==> buf.refs == old(buf.refs))
      && (path == ImportFailed ==> IsErrno(ret) && file.handles == old(file.handles))
      // a NULL import reports success without setting args->handle
      && (path == ImportNull ==> ret == 0 && handle == handleIn && file.handles == old(file.handles))
      && (path == HandleFailed ==> IsErrno(ret) && file.handles == old(file.handles))
      // ... and drops the only reference to the object prime_import returned
      && (path == HandleFailed ==> made != null && fresh(made) && made.refs == 0 && made.handleCount == 0)
      // a failed insert releases the handle's references but leaves the handle in the table
      && (path == InsertFailed ==>
            ret == -ENOMEM && created !in old(file.handles) && created in file.handles &&
            file.handles == old(file.handles)[created := file.handles[created]] &&
            fresh(file.handles[created]) && file.handles[created].refs == 0 && file.handles[created].handleCount == 0)
      // success: a new handle for a new object, registered against the buffer, which keeps
      // the dma_buf_get reference
      && (path == Imported ==>
            ret == 0 && prime.entries == [Member(buf, handle)] + old(prime.entries) &&
            buf.refs == old(buf.refs) + 1 && handle !in old(file.handles) && handle in file.handles &&
            file.handles == old(file.handles)[handle := file.handles[handle]] &&
            fresh(file.handles[handle]) && file.handles[handle].refs == 1 && file.handles[handle].handleCount == 1)
    // no buffer is registered twice
    ensures Unique(old(prime.entries)) ==> Unique(prime.entries)
  {
    handle := handleIn;
    created, made := 0, null;
    if !dev.primeFeature {
      return -EINVAL, handle, Rejected, created, made;
    }
    if !dev.hasPrimeImport {
      return -ENOSYS, handle, Rejected, created, made;
    }
    var p := DmaBufGet(fds, fdArg);
    if p.IsErr() {
      return p.PtrErr(), handle, GetFailed, created, made;
    }
    var buf := p.target;
    ret, handle := prime.Lookup(buf, handle);
    if ret == 0 {
      DmaBufPut(buf);
      return 0, handle, Found, created, made;
    }

    ret, handle, path, created, made := ImportMiss(dev, file, prime, buf, handle);
  }

  // ---------------------------------------------------------------------------------------
  // Scatter tables and teardown

  /**
   * drm_prime_pages_to_sg: a table of `nrPages` entries, entry i covering all of pages[i]
   * from offset 0. Returns null, having freed its table, when an allocation fails.
   */
  method PagesToSg(pages: array<Page>, nrPages: int) returns (sg: SgTable?)
    requires 0 <= nrPages <= pages.Length
    ensures sg != null ==> fresh(sg) && fresh(sg.sgl) && sg.live && sg.sgl.Length == nrPages
    ensures sg != null ==> forall i :: 0 <= i < nrPages ==> sg.sgl[i] == Segment(pages[i], PAGE_SIZE, 0)
  {
    var tableAllocated: bool := *;
    if !tableAllocated {
      return null;
    }
    sg := new SgTable.Empty();
    var entriesAllocated: bool := *;
    if !entriesAllocated {
      sg.live := false;
      return null;
    }
    var sgl := new Segment[nrPages];
    sg.sgl := sgl;
    var i := 0;
    while i < nrPages
      invariant 0 <= i <= nrPages
      invariant sg.sgl == sgl && sg.live
      invariant forall k :: 0 <= k < i ==> sgl[k] == Segment(pages[k], PAGE_SIZE, 0)
    {
      sgl[i] := Segment(pages[i], PAGE_SIZE, 0);
      i := i + 1;
    }
  }

  /**
   * drm_prime_gem_destroy: for an imported object whose attachment maps at most `sg`,
   * unmaps `sg` when there is one and always detaches.
   */
  method GemDestroy(obj: GemObject, sg: SgTable?)
    requires obj.importAttach != null
    requires obj.importAttach.mapped == if sg == null then {} else {sg}
    modifies obj.importAttach`mapped, obj.importAttach.dmabuf`attachments
    ensures sg == null ==> unchanged(obj.importAttach)
    ensures obj.importAttach.mapped == {}
    ensures obj.importAttach.dmabuf.attachments == old(obj.importAttach.dmabuf.attachments) - {obj.importAttach}
  {
    var attach := obj.importAttach;
    if sg != null {
      DmaBufUnmapAttachment(attach, sg);
    }
    DmaBufDetach(attach.dmabuf, attach);
  }

  // ---------------------------------------------------------------------------------------
  // Repeated calls

  /**
   * Two exports of one handle, `first` being what the object caches after the first call:
   * unless that is NULL (which reads as "no export yet"), the second call reuses it and
   * prime_export has run at most once; once the object holds a buffer both calls succeed,
   * every descriptor they install names that one buffer, and each call keeps the object
   * reference its lookup took.
   */
  method ExportTwice(dev: DrmDevice, file: DrmFile, fds: FdTable, handle: Handle, flags: int, fdIn: int)
    returns (ret1: int, fd1: int, ret2: int, fd2: int, ghost first: Ptr<DmaBuf>)
    requires dev.primeFeature && dev.hasPrimeExport && handle in file.handles
    modifies dev`exportCalls, fds, Named(file, handle)`refs, Named(file, handle)`exportDmaBuf
    ensures first != Null ==> file.handles[handle].exportDmaBuf == first && dev.exportCalls <= old(dev.exportCalls) + 1
    ensures old(file.handles[handle].exportDmaBuf) != Null ==> dev.exportCalls == old(dev.exportCalls)
    ensures first.Addr? ==>
      ret1 == 0 && ret2 == 0 &&
      (fd1 >= 0 ==> fd1 in fds.files && fds.files[fd1] == first.target) &&
      (fd2 >= 0 ==> fd2 in fds.files && fds.files[fd2] == first.target)
    // each descriptor is a new one, yet neither takes a reference on the buffer
    ensures first.Addr? && fd1 >= 0 && fd2 >= 0 ==> fd1 != fd2
    ensures first.Addr? && old(file.handles[handle].exportDmaBuf) == Null ==> first.target.refs == 1
    // neither successful call drops the object reference its lookup took
    ensures first.Addr? ==> file.handles[handle].refs == old(file.handles[handle].refs) + 2
  {
    ret1, fd1 := HandleToFdIoctl(dev, file, fds, handle, flags, fdIn);
    first := file.handles[handle].exportDmaBuf;
    ret2, fd2 := HandleToFdIoctl(dev, file, fds, handle, flags, fdIn);
  }

  /**
   * Two imports, of descriptors `fdA` and `fdB` naming one buffer. The registry
   * deduplicates by buffer, not by descriptor: once the first import has registered the
   * buffer, the second is a registry hit that returns the first handle without calling
   * prime_import.
   */
  method ImportTwice(dev: DrmDevice, file: DrmFile, prime: PrimeFilePrivate, fds: FdTable, fdA: int, fdB: int, handleIn: Handle)
    returns (ret1: int, handle1: Handle, ret2: int, handle2: Handle, ghost path1: ImportPath, ghost path2: ImportPath)
    modifies dev`importCalls, prime`entries, file`handles, BufferOf(fds, fdA)`refs, BufferOf(fds, fdB)`refs
    ensures fdA in fds.files && fdB in fds.files && fds.files[fdA] == fds.files[fdB] && path1 in {Found, Imported} ==>
      path2 == Found && ret2 == 0 && handle2 == handle1 &&
      dev.importCalls == old(dev.importCalls) + (if path1 == Imported then 1 else 0)
  {
    ghost var created, made;
    ret1, handle1, path1, created, made := FdToHandleIoctl(dev, file, prime, fds, fdA, handleIn);
    ret2, handle2, path2, created, made := FdToHandleIoctl(dev, file, prime, fds, fdB, handle1);
  }

  /**
   * Two imports of descriptors naming different buffers, the second not yet registered:
   * prime_import runs for each, and when both succeed the handles differ and both buffers
   * are registered, the later at the head.
   */
  method ImportDistinct(dev: DrmDevice, file: DrmFile, prime: PrimeFilePrivate, fds: FdTable, fdA: int, fdB: int, handleIn: Handle)
    returns (ret1: int, handle1: Handle, ret2: int, handle2: Handle, ghost path1: ImportPath, ghost path2: ImportPath)
    requires dev.primeFeature && dev.hasPrimeImport
    requires fdA in fds.files && fdB in fds.files && fds.files[fdA] != fds.files[fdB]
    requires Find(prime.entries, fds.files[fdB]) == None
    modifies dev`importCalls, prime`entries, file`handles, BufferOf(fds, fdA)`refs, BufferOf(fds, fdB)`refs
    ensures path1 == Imported ==>
      path2 != Found && dev.importCalls == old(dev.importCalls) + 2 &&
      (path2 == Imported ==>
         ret2 == 0 && handle2 != handle1 &&
         prime.entries == [Member(fds.files[fdB], handle2), Member(fds.files[fdA], handle1)] + old(prime.entries))
  {
    ghost var created, made;
    ret1, handle1, path1, created, made := FdToHandleIoctl(dev, file, prime, fds, fdA, handleIn);
    if path1 == Imported {
      // the first buffer now heads the registry, so a lookup of the second still misses
      assert Find(prime.entries, fds.files[fdB]) == Find(old(prime.entries), fds.files[fdB]);
      assert handle1 in file.handles;
    }
    ret2, handle2, path2, created, made := FdToHandleIoctl(dev, file, prime, fds, fdB, handle1);
  }
}
